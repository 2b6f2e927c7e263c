/** The linker: the overlap check, the image, and how the machine finds a flash address again. */
module Linker {
  import opened Wrappers
  import opened Bits
  import opened ControlRom
  import opened Assembler
  import opened Backpatching
  import opened AssemblerObject
  import M = Machine

  // ---- The overlap check ----

  /** The byte ranges have an address in common. */
  ghost predicate Overlap(a: Segment, b: Segment) {
    exists x: nat :: Inside(a, x) && Inside(b, x)
  }

  /** For segments with data the check is exactly about common addresses. */
  lemma IntersectingIsOverlap(a: Segment, b: Segment)
    requires a.data != [] && b.data != []
    ensures Intersecting(a, b) <==> Overlap(a, b)
  {
    if Intersecting(a, b) {
      var x := if a.address < b.address then b.address else a.address;
      assert Inside(a, x) && Inside(b, x);
    }
  }

  /** Every pair once. */
  method CheckSegments(segments: seq<Segment>) returns (errors: nat)
    ensures errors == 0 <==> Disjoint(segments)
  {
    errors := 0;
    for j := 0 to |segments|
      invariant errors == 0 <==> forall p, q :: 0 <= p < j && p < q < |segments| ==>
                !Intersecting(segments[p], segments[q])
    {
      ghost var before := errors;
      for l := j + 1 to |segments|
        invariant errors >= before
        invariant errors == before <==> forall q :: j < q < l ==> !Intersecting(segments[j], segments[q])
      {
        if Intersecting(segments[j], segments[l]) {
          errors := errors + 1;
        }
      }
    }
  }

  /** One file by itself: parsed in one pass and patched, then checked for overlaps and unresolved names. */
  method Assemble(p: seq<Pattern>) returns (result: Option<seq<Segment>>)
    requires Opens(p) && RealData(p)
    ensures result == OnePass(p)
  {
    hide Pass, Disjoint, Resolved, FieldsInside, RealData, Patch;
    var file := new ObjectFile();
    assert Tidy(EMPTY) by { NothingTidy(); }
    TidyPass(EMPTY, p);
    file.ParsePatterns(p);
    ghost var s := file.Now();
    var unresolved := file.ResolveReferences();
    if file.errorCount > 0 {
      return None;
    }
    assert Disjoint(file.segments) == Disjoint(s.segments) by { PatchDisjoint(s.segments, s.references, s.symbols); }
    var errors := CheckSegments(file.segments);
    if errors + unresolved > 0 {
      return None;
    }
    return Some(file.segments);
  }

  /** Patching changes bytes only, so it makes no difference to the check. */
  lemma PatchDisjoint(segments: seq<Segment>, references: seq<Reference>, symbols: seq<Symbol>)
    ensures Disjoint(Patch(segments, references, symbols)) == Disjoint(segments)
  {
    hide Disjoint, Patch;
    var patched := Patch(segments, references, symbols);
    PatchShape(segments, references, symbols);
    if Disjoint(segments) {
      DisjointShape(segments, patched);
    } else if Disjoint(patched) {
      DisjointShape(patched, segments);
    }
  }

  lemma NothingTidy()
    ensures Tidy(EMPTY)
  {
  }

  // ---- The image ----

  const OUTPUT_SIZE: nat := 262144

  predicate Fits(segments: seq<Segment>, n: nat) {
    forall i :: 0 <= i < |segments| ==> segments[i].address + |segments[i].data| <= n
  }

  /** The segments copied one after the other over `out`. */
  function Image(out: seq<Byte>, segments: seq<Segment>): (r: seq<Byte>)
    requires Fits(segments, |out|)
    ensures |r| == |out|
    decreases |segments|
  {
    if segments == [] then out else Image(Overwrite(out, segments[0].address, segments[0].data), segments[1..])
  }

  /** Copies into the output buffer, whatever it holds at first. */
  method BuildImage(segments: seq<Segment>, output: array<Byte>)
    requires Fits(segments, output.Length)
    modifies output
    ensures output[..] == Image(old(output[..]), segments)
  {
    hide Overwrite;
    for i := 0 to |segments|
      invariant Fits(segments[i..], output.Length)
      invariant Image(old(output[..]), segments) == Image(output[..], segments[i..])
    {
      assert segments[i..][0] == segments[i] && segments[i..][1..] == segments[i + 1..];
      CopyData(output, segments[i]);
    }
  }

  method CopyData(output: array<Byte>, segment: Segment)
    requires segment.address + |segment.data| <= output.Length
    modifies output
    ensures output[..] == Overwrite(old(output[..]), segment.address, segment.data)
  {
    ghost var before := output[..];
    for k := 0 to |segment.data|
      invariant output[..] == Overwrite(before, segment.address, segment.data[..k])
    {
      OverwriteNext(before, segment.address, segment.data[..k], segment.data[k]);
      assert segment.data[..k] + [segment.data[k]] == segment.data[..k + 1];
      output[segment.address + k] := segment.data[k];
    }
    assert segment.data[..|segment.data|] == segment.data;
  }

  /** An address outside all segments keeps what was there. */
  lemma {:induction false} ImageOutside(out: seq<Byte>, segments: seq<Segment>, x: nat)
    requires Fits(segments, |out|) && x < |out| && forall i :: 0 <= i < |segments| ==> !Inside(segments[i], x)
    ensures Image(out, segments)[x] == out[x]
    decreases |segments|
  {
    if segments != [] {
      assert !Inside(segments[0], x);
      ImageOutside(Overwrite(out, segments[0].address, segments[0].data), segments[1..], x);
    }
  }

  /** An address inside a segment gets that segment's byte, wherever in the order the segment is. */
  lemma {:induction false} ImageInside(out: seq<Byte>, segments: seq<Segment>, i: nat, x: nat)
    requires Fits(segments, |out|) && Disjoint(segments) && i < |segments| && Inside(segments[i], x)
    ensures x < |out| && Image(out, segments)[x] == segments[i].data[x - segments[i].address]
    decreases |segments|
  {
    var next := Overwrite(out, segments[0].address, segments[0].data);
    if i == 0 {
      forall j | 0 <= j < |segments| - 1
        ensures !Inside(segments[1..][j], x)
      {
        assert !Intersecting(segments[0], segments[j + 1]);
      }
      ImageOutside(next, segments[1..], x);
    } else {
      DisjointRest(segments);
      ImageInside(next, segments[1..], i - 1, x);
    }
  }

  lemma DisjointRest(segments: seq<Segment>)
    requires segments != [] && Disjoint(segments)
    ensures Disjoint(segments[1..])
  {
    forall i, j | 0 <= i < j < |segments| - 1
      ensures !Intersecting(segments[1..][i], segments[1..][j])
    {
      assert !Intersecting(segments[i + 1], segments[j + 1]);
    }
  }

  /** Two places of a value that occurs twice. */
  lemma {:induction false} TwoPlaces(s: seq<Segment>, v: Segment) returns (i: nat, j: nat)
    requires multiset(s)[v] >= 2
    ensures i < j < |s| && s[i] == v && s[j] == v
    decreases |s|
  {
    assert s == [s[0]] + s[1..];
    if s[0] == v {
      assert v in multiset(s[1..]);
      var k :| 0 <= k < |s| - 1 && s[1..][k] == v;
      i, j := 0, k + 1;
    } else {
      i, j := TwoPlaces(s[1..], v);
      i, j := i + 1, j + 1;
    }
  }

  lemma {:induction false} TwiceInside(s: seq<Segment>, i: nat, j: nat)
    requires i < j < |s| && s[i] == s[j]
    ensures multiset(s)[s[i]] >= 2
    decreases |s|
  {
    assert s == [s[0]] + s[1..];
    if i == 0 {
      assert s[1..][j - 1] == s[j];
      assert s[j] in multiset(s[1..]);
    } else {
      TwiceInside(s[1..], i - 1, j - 1);
    }
  }

  /** The check passes in every order of the same segments. */
  lemma DisjointPermuted(a: seq<Segment>, b: seq<Segment>)
    requires Disjoint(a) && multiset(a) == multiset(b)
    ensures Disjoint(b)
  {
    forall i, j | 0 <= i < j < |b|
      ensures !Intersecting(b[i], b[j])
    {
      if b[i] == b[j] {
        TwiceInside(b, i, j);
        var p, q := TwoPlaces(a, b[i]);
        assert !Intersecting(a[p], a[q]);
      } else {
        assert b[i] in multiset(a) && b[j] in multiset(a);
        var p :| 0 <= p < |a| && a[p] == b[i];
        var q :| 0 <= q < |a| && a[q] == b[j];
        if p < q {
          assert !Intersecting(a[p], a[q]);
        } else {
          assert !Intersecting(a[q], a[p]);
        }
      }
    }
  }

  /** The image does not depend on the order in which disjoint segments are copied. */
  lemma ImageAnyOrder(out: seq<Byte>, a: seq<Segment>, b: seq<Segment>)
    requires Fits(a, |out|) && Disjoint(a) && multiset(a) == multiset(b)
    ensures Fits(b, |out|) && Image(out, a) == Image(out, b)
  {
    hide Disjoint, Image;
    DisjointPermuted(a, b);
    FitsPermuted(out, a, b);
    forall x | 0 <= x < |out|
      ensures Image(out, a)[x] == Image(out, b)[x]
    {
      if i :| 0 <= i < |a| && Inside(a[i], x) {
        assert a[i] in multiset(b);
        var j :| 0 <= j < |b| && b[j] == a[i];
        ImageInside(out, a, i, x);
        ImageInside(out, b, j, x);
      } else {
        forall j | 0 <= j < |b|
          ensures !Inside(b[j], x)
        {
          assert b[j] in multiset(a);
        }
        ImageOutside(out, a, x);
        ImageOutside(out, b, x);
      }
    }
  }

  lemma FitsPermuted(out: seq<Byte>, a: seq<Segment>, b: seq<Segment>)
    requires Fits(a, |out|) && multiset(a) == multiset(b)
    ensures Fits(b, |out|)
  {
    forall j | 0 <= j < |b|
      ensures b[j].address + |b[j].data| <= |out|
    {
      assert b[j] in multiset(a);
    }
  }

  // ---- Banked addresses ----

  lemma LongParts(a: nat)
    ensures NormalizeWord(a) == 0xC000 + a % 0x4000
    ensures NormalizeLong(a) == NormalizeWord(a) + a / 0x4000 % 16 * 0x10000
  {
    hide BitOr, Pow2;
    Powers();
    Fourteen();
    OrAbove(a % 0x4000, 3, 14);
    OrAbove(NormalizeWord(a), a / 0x4000 % 16, 16);
  }

  lemma Fourteen()
    ensures Pow2(14) == 0x4000
  {
    PowByte();
    assert Pow2(10) == 0x400;
    assert Pow2(12) == 0x1000;
  }

  /** Selecting the bank of a normalized flash address and reading its word gives the byte at the address. */
  lemma ReadsBack(m: M.Memory, lines: M.Lines, a: nat)
    requires |m.flash| == M.FLASH_SIZE && a < M.FLASH_SIZE
    ensures NormalizeLong(a) / 0x10000 < 16
    ensures M.ReadMemory(m.(bank := NormalizeLong(a) / 0x10000), lines, NormalizeLong(a) % 0x10000) == m.flash[a]
  {
    hide NormalizeLong, NormalizeWord;
    LongParts(a);
    assert NormalizeLong(a) / 0x10000 == a / 0x4000 && NormalizeLong(a) % 0x10000 == 0xC000 + a % 0x4000;
  }

  lemma FieldBytes(x: nat, size: nat)
    requires size == 2 || size == 3
    ensures var b := LittleEndian(x, size);
            |b| == size && b[0] == x % 256 && b[1] == x / 256 % 256 && (size == 3 ==> b[2] == x / 0x10000 % 256)
  {
    assert LittleEndian(x, size)[1..] == LittleEndian(x / 256, size - 1);
    if size == 3 {
      assert LittleEndian(x / 256, 2)[1..] == LittleEndian(x / 256 / 256, 1);
    }
  }

  /** The operand that is emitted for a name: two bytes, or three for a far one, which select the flash byte at the
      name's address when they are read as a word, lowest byte first, and a bank. */
  lemma OperandReadsBack(m: M.Memory, lines: M.Lines, v: nat, far: bool)
    requires |m.flash| == M.FLASH_SIZE && v < M.FLASH_SIZE && (!far ==> m.bank == v / 0x4000)
    ensures var b := LittleEndian(Normalize(v, far), FarSize(far));
            |b| == (if far then 3 else 2) &&
            var low: nat, high: nat := b[0], b[1];
            low + 256 * high < 0x10000 &&
            M.ReadMemory(if far then m.(bank := b[2]) else m, lines, low + 256 * high) == m.flash[v]
  {
    hide NormalizeLong, NormalizeWord, M.ReadMemory, LittleEndian;
    LongParts(v);
    FieldBytes(Normalize(v, far), FarSize(far));
    ReadsBack(m, lines, v);
    var b := LittleEndian(Normalize(v, far), FarSize(far));
    var low: nat, high: nat := b[0], b[1];
    assert low + 256 * high == NormalizeLong(v) % 0x10000;
  }

  /** An assembled file in flash: every byte of every segment is found at its normalized address. */
  lemma ImageReadsBack(p: seq<Pattern>, out: seq<Byte>, m: M.Memory, lines: M.Lines, i: nat, k: nat)
    requires Opens(p) && OnePass(p).Some? && |out| == OUTPUT_SIZE && Fits(OnePass(p).value, |out|)
    requires m.flash == Image(out, OnePass(p).value)
    requires i < |OnePass(p).value| && k < |OnePass(p).value[i].data|
    ensures var a := OnePass(p).value[i].address + k;
            NormalizeLong(a) / 0x10000 < 16 &&
            M.ReadMemory(m.(bank := NormalizeLong(a) / 0x10000), lines, NormalizeLong(a) % 0x10000) ==
            OnePass(p).value[i].data[k]
  {
    hide NormalizeLong, M.ReadMemory, Pass, Image, Disjoint;
    var segments := OnePass(p).value;
    var s := Pass(EMPTY, p);
    PatchShape(s.segments, s.references, s.symbols);
    DisjointShape(s.segments, segments);
    ImageInside(out, segments, i, segments[i].address + k);
    ReadsBack(m, lines, segments[i].address + k);
  }
}
