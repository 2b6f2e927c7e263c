/** The assembler's two ways to the same bytes: one pass with references patched afterwards, as the program
    works, and two passes with all labels known, as a reader would expect it to work. */
module Assembler {
  import opened Wrappers
  import opened Bits

  datatype Symbol = Symbol(name: string, value: nat)

  datatype Kind = RefData | RefRelative | RefAbsolute

  /** A field of `size` bytes at `address` that waits for a name. */
  datatype Reference = Reference(kind: Kind, address: nat, name: string, size: nat)

  datatype Segment = Segment(address: nat, data: seq<Byte>)

  datatype Item = Number(value: nat) | NameItem(name: string)

  /** One line. Instructions come with their opcodes; a branch has one opcode for each direction. */
  datatype Pattern =
    | Origin(address: nat)
    | Label(name: string)
    | Data(size: nat, items: seq<Item>)
    | Instruction(opcode: Byte, value: nat, size: nat)
    | WithName(opcode: Byte, name: string, far: bool)
    | Branch(forward: Byte, backward: Byte, name: string)

  // ---- Numbers ----

  /** The value on 32 bits. */
  function Wrap(x: int): nat {
    x % 0x1_0000_0000
  }

  function LittleEndian(v: nat, size: nat): (b: seq<Byte>)
    ensures |b| == size
  {
    if size == 0 then [] else [v % 256] + LittleEndian(v / 256, size - 1)
  }

  /** The bank window's address of a flash address. */
  function NormalizeWord(a: nat): nat {
    BitOr(a % 0x4000, 0xC000)
  }

  /** The same with the bank above it. */
  function NormalizeLong(a: nat): nat {
    BitOr(NormalizeWord(a), a / 0x4000 % 16 * 0x10000)
  }

  function FarSize(far: bool): nat {
    if far then 3 else 2
  }

  function Normalize(a: nat, far: bool): nat {
    if far then NormalizeLong(a) else NormalizeWord(a)
  }

  /** The first symbol of that name. */
  function Lookup(symbols: seq<Symbol>, name: string): Option<nat> {
    if symbols == [] then None
    else if symbols[0].name == name then Some(symbols[0].value)
    else Lookup(symbols[1..], name)
  }

  // ---- Segments ----

  /** The bytes at the end of the last segment. */
  function Append(segments: seq<Segment>, bytes: seq<Byte>): (r: seq<Segment>)
    requires segments != []
    ensures |r| == |segments|
  {
    var n := |segments| - 1;
    segments[n := Segment(segments[n].address, segments[n].data + bytes)]
  }

  predicate Inside(s: Segment, a: nat) {
    s.address <= a < s.address + |s.data|
  }

  /** The last segment that an address lies in. */
  function SegmentOf(segments: seq<Segment>, a: nat): (i: Option<nat>)
    ensures i.Some? ==> i.value < |segments| && Inside(segments[i.value], a)
  {
    if segments == [] then None
    else if Inside(segments[|segments| - 1], a) then Some(|segments| - 1)
    else SegmentOf(segments[..|segments| - 1], a)
  }

  function Overwrite(data: seq<Byte>, at: nat, bytes: seq<Byte>): (r: seq<Byte>)
    requires at + |bytes| <= |data|
    ensures |r| == |data|
  {
    data[..at] + bytes + data[at + |bytes|..]
  }

  /** The bytes put over what the segments hold at an address. */
  function Insert(segments: seq<Segment>, a: nat, bytes: seq<Byte>): (r: seq<Segment>)
    ensures |r| == |segments|
  {
    match SegmentOf(segments, a)
    case None => segments
    case Some(i) =>
      var s := segments[i];
      if a - s.address + |bytes| <= |s.data| then
        segments[i := Segment(s.address, Overwrite(s.data, a - s.address, bytes))]
      else segments
  }

  // ---- One pass ----

  datatype Assembly = Assembly(segments: seq<Segment>, references: seq<Reference>, symbols: seq<Symbol>, at: nat,
                               errors: nat)

  function Emit(s: Assembly, v: nat, size: nat): Assembly
    requires s.segments != []
  {
    s.(segments := Append(s.segments, LittleEndian(v, size)), at := s.at + size)
  }

  /** Zeros for now, and a reference to fill them in later. */
  function Ask(s: Assembly, kind: Kind, name: string, size: nat): Assembly
    requires s.segments != []
  {
    Emit(s.(references := s.references + [Reference(kind, s.at, name, size)]), 0, size)
  }

  /** A name in a data directive that is not declared yet takes the room of two items. */
  function PutItem(s: Assembly, item: Item, size: nat): Assembly
    requires s.segments != []
  {
    match item
    case Number(v) => Emit(s, v, size)
    case NameItem(name) =>
      match Lookup(s.symbols, name)
      case Some(v) => Emit(s, v, size)
      case None => Emit(Ask(s, RefData, name, size), 0, size)
  }

  function PutItems(s: Assembly, items: seq<Item>, size: nat): (r: Assembly)
    requires s.segments != []
    ensures r.segments != []
    decreases |items|
  {
    if items == [] then s else PutItems(PutItem(s, items[0], size), items[1..], size)
  }

  function PutName(s: Assembly, name: string, far: bool): Assembly
    requires s.segments != []
  {
    match Lookup(s.symbols, name)
    case Some(v) => Emit(s, Normalize(v, far), FarSize(far))
    case None => Ask(s, RefAbsolute, name, FarSize(far))
  }

  function PutBranch(s: Assembly, name: string): Assembly
    requires s.segments != []
  {
    match Lookup(s.symbols, name)
    case None => Ask(s, RefRelative, name, 1)
    case Some(v) =>
      var distance := Wrap(s.at - v - 1);
      if distance > 255 then s.(errors := s.errors + 1) else Emit(s, distance, 1)
  }

  function Step(s: Assembly, p: Pattern): (r: Assembly)
    requires s.segments != [] || p.Origin?
    ensures r.segments != []
  {
    match p
    case Origin(a) => s.(segments := s.segments + [Segment(a, [])], at := a)
    case Label(name) => s.(symbols := s.symbols + [Symbol(name, s.at)])
    case Data(size, items) => PutItems(s, items, size)
    case Instruction(opcode, v, size) => Emit(Emit(s, opcode, 1), v, size)
    case WithName(opcode, name, far) => PutName(Emit(s, opcode, 1), name, far)
    case Branch(forward, backward, name) =>
      PutBranch(Emit(s, if Lookup(s.symbols, name).None? then forward else backward, 1), name)
  }

  predicate Opens(p: seq<Pattern>) {
    p == [] || p[0].Origin?
  }

  function Pass(s: Assembly, p: seq<Pattern>): Assembly
    requires s.segments != [] || Opens(p)
    decreases |p|
  {
    if p == [] then s else Pass(Step(s, p[0]), p[1..])
  }

  /** The bytes that fill a reference, if its name is known and, for a branch, near enough. */
  function Filling(r: Reference, symbols: seq<Symbol>): (b: Option<seq<Byte>>)
    ensures b.Some? && (r.kind.RefRelative? ==> r.size == 1) ==> |b.value| == r.size
  {
    match Lookup(symbols, r.name)
    case None => None
    case Some(v) =>
      match r.kind
      case RefData => Some(LittleEndian(v, r.size))
      case RefAbsolute => Some(LittleEndian(if r.size == 2 then NormalizeWord(v) else NormalizeLong(v), r.size))
      case RefRelative =>
        var distance := Wrap(v - r.address - 2);
        if distance > 255 then None else Some(LittleEndian(distance, 1))
  }

  /** All references filled in, those that cannot be left alone. */
  function Patch(segments: seq<Segment>, references: seq<Reference>, symbols: seq<Symbol>): (r: seq<Segment>)
    ensures |r| == |segments|
    decreases |references|
  {
    if references == [] then segments
    else match Filling(references[0], symbols)
         case None => Patch(segments, references[1..], symbols)
         case Some(b) => Patch(Insert(segments, references[0].address, b), references[1..], symbols)
  }

  predicate Resolved(references: seq<Reference>, symbols: seq<Symbol>) {
    forall i :: 0 <= i < |references| ==> Filling(references[i], symbols).Some?
  }

  /** `intersecting` of the linker */
  predicate Intersecting(a: Segment, b: Segment) {
    if a.address < b.address then a.address + |a.data| > b.address
    else if b.address < a.address then b.address + |b.data| > a.address
    else true
  }

  predicate Disjoint(segments: seq<Segment>) {
    forall i, j :: 0 <= i < j < |segments| ==> !Intersecting(segments[i], segments[j])
  }

  const EMPTY: Assembly := Assembly([], [], [], 0, 0)

  /** What a file by itself is assembled and linked to: nothing if there is any error. */
  function OnePass(p: seq<Pattern>): Option<seq<Segment>>
    requires Opens(p)
  {
    var s := Pass(EMPTY, p);
    if s.errors > 0 || !Resolved(s.references, s.symbols) || !Disjoint(s.segments) then None
    else Some(Patch(s.segments, s.references, s.symbols))
  }

  // ---- Two passes ----

  function Size(p: Pattern): nat {
    match p
    case Origin(_) => 0
    case Label(_) => 0
    case Data(size, items) => size * |items|
    case Instruction(_, _, size) => 1 + size
    case WithName(_, _, far) => 1 + FarSize(far)
    case Branch(_, _, _) => 2
  }

  /** The first pass: every label with its address, from sizes alone. */
  function Table(p: seq<Pattern>, at: nat): seq<Symbol> {
    if p == [] then []
    else match p[0]
         case Origin(a) => Table(p[1..], a)
         case Label(name) => [Symbol(name, at)] + Table(p[1..], at)
         case _ => Table(p[1..], at + Size(p[0]))
  }

  /** The second pass: `seen` are the labels declared so far, which only tell a branch its direction. */
  datatype Second = Second(segments: seq<Segment>, seen: seq<Symbol>, at: nat, ok: bool)

  function Write(t: Second, bytes: seq<Byte>): Second
    requires t.segments != []
  {
    t.(segments := Append(t.segments, bytes), at := t.at + |bytes|)
  }

  function WriteItem(t: Second, item: Item, size: nat, table: seq<Symbol>): Second
    requires t.segments != []
  {
    match item
    case Number(v) => Write(t, LittleEndian(v, size))
    case NameItem(name) =>
      match Lookup(table, name)
      case Some(v) => Write(t, LittleEndian(v, size))
      case None => Write(t, LittleEndian(0, size)).(ok := false)
  }

  function WriteItems(t: Second, items: seq<Item>, size: nat, table: seq<Symbol>): (r: Second)
    requires t.segments != []
    ensures r.segments != []
    decreases |items|
  {
    if items == [] then t else WriteItems(WriteItem(t, items[0], size, table), items[1..], size, table)
  }

  function WriteName(t: Second, name: string, far: bool, table: seq<Symbol>): Second
    requires t.segments != []
  {
    match Lookup(table, name)
    case Some(v) => Write(t, LittleEndian(Normalize(v, far), FarSize(far)))
    case None => Write(t, LittleEndian(0, FarSize(far))).(ok := false)
  }

  /** A branch is a byte of distance, counted differently forwards and backwards. */
  function WriteBranch(t: Second, name: string, table: seq<Symbol>): Second
    requires t.segments != []
  {
    match Lookup(table, name)
    case None => Write(t, [0]).(ok := false)
    case Some(v) =>
      var distance := if Lookup(t.seen, name).None? then Wrap(v - t.at - 2) else Wrap(t.at - v - 1);
      if distance > 255 then Write(t, [0]).(ok := false) else Write(t, LittleEndian(distance, 1))
  }

  function SecondStep(t: Second, p: Pattern, table: seq<Symbol>): (r: Second)
    requires t.segments != [] || p.Origin?
    ensures r.segments != []
  {
    match p
    case Origin(a) => t.(segments := t.segments + [Segment(a, [])], at := a)
    case Label(name) => t.(seen := t.seen + [Symbol(name, t.at)])
    case Data(size, items) => WriteItems(t, items, size, table)
    case Instruction(opcode, v, size) => Write(Write(t, [opcode]), LittleEndian(v, size))
    case WithName(opcode, name, far) => WriteName(Write(t, [opcode]), name, far, table)
    case Branch(forward, backward, name) =>
      WriteBranch(Write(t, [if Lookup(t.seen, name).None? then forward else backward]), name, table)
  }

  function SecondPass(t: Second, p: seq<Pattern>, table: seq<Symbol>): Second
    requires t.segments != [] || Opens(p)
    decreases |p|
  {
    if p == [] then t else SecondPass(SecondStep(t, p[0], table), p[1..], table)
  }

  function TwoPass(p: seq<Pattern>): Option<seq<Segment>>
    requires Opens(p)
  {
    var t := SecondPass(Second([], [], 0, true), p, Table(p, 0));
    if !t.ok || !Disjoint(t.segments) then None else Some(t.segments)
  }
}
