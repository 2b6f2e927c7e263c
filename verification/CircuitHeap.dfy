/** The simulator as it is written: one pool of linked update nodes shared by the update list and
    the empty list, nets updated in place. Every method is tied to the value-level step. */
module CircuitHeap {
  import opened Wrappers
  import opened Bits
  import opened Schedule
  import opened Chips
  import opened Simulation

  const BLOCK: nat := 512

  const UNSIGNED: nat := 0x1_0000_0000

  lemma {:induction false} UnsignedPower(n: nat)
    requires n <= 32
    ensures Pow2(n) <= UNSIGNED
    decreases 32 - n
  {
    if n < 32 {
      UnsignedPower(n + 1);
    } else {
      PowByte();
      assert Pow2(16) == 65536 by {
        assert Pow2(12) == 4096;
      }
      assert Pow2(24) == 0x100_0000 by {
        assert Pow2(20) == 0x10_0000;
      }
      assert Pow2(28) == 0x1000_0000;
    }
  }

  /** `++elapsed_time` on an unsigned 64-bit counter. */
  function Tick(t: nat): nat {
    if t + 1 < 0x1_0000_0000_0000_0000 then t + 1 else 0
  }

  class NetUpdate {
    var next: NetUpdate?
    var target: Option<nat>
    var val: bool
    var delay: int

    constructor ()
      ensures next == null && target == None && !val && delay == 0
    {
      next, target, val, delay := null, None, false, 0;
    }
  }

  ghost function After(s: seq<NetUpdate>, i: int): NetUpdate?
    requires 0 <= i < |s|
  {
    if i + 1 < |s| then s[i + 1] else null
  }

  ghost predicate Chain(s: seq<NetUpdate>, head: NetUpdate?)
    reads s
  {
    && head == (if s == [] then null else s[0])
    && forall i {:trigger s[i].next} :: 0 <= i < |s| ==> s[i].next == After(s, i)
  }

  ghost predicate NoDup(s: seq<NetUpdate>) {
    forall i, j :: 0 <= i < j < |s| ==> s[i] != s[j]
  }

  function RemoveAt<T>(s: seq<T>, k: nat): (r: seq<T>)
    requires k < |s|
    ensures |r| == |s| - 1
    ensures forall i :: 0 <= i < |r| ==> r[i] == s[if i < k then i else i + 1]
  {
    seq(|s| - 1, i requires 0 <= i < |s| - 1 => s[if i < k then i else i + 1])
  }

  ghost predicate Cleared(s: seq<NetUpdate>)
    reads s
  {
    forall i :: 0 <= i < |s| ==> s[i].target == None && !s[i].val && s[i].delay == 0
  }

  ghost predicate Tells(s: seq<NetUpdate>, sched: seq<Update>)
    reads s
  {
    |s| == |sched| && forall i :: 0 <= i < |s| ==> Says(s[i], sched[i])
  }

  ghost predicate Apart(a: seq<NetUpdate>, b: seq<NetUpdate>) {
    forall i, j :: 0 <= i < |a| && 0 <= j < |b| ==> a[i] != b[j]
  }

  ghost predicate Says(node: NetUpdate, u: Update)
    reads node
  {
    node.target == Some(u.target) && node.val == u.val && node.delay == u.delay
  }

  /** The link that led to node `k` now leads to the node after it. */
  lemma ChainUnlink(s: seq<NetUpdate>, head: NetUpdate?, k: nat)
    requires k < |s| && head == if k == 0 then After(s, k) else s[0]
    requires forall i {:trigger s[i].next} :: 0 <= i < |s| ==>
               s[i].next == After(s, if i + 1 == k then k else i)
    ensures Chain(RemoveAt(s, k), head)
  {
    var r := RemoveAt(s, k);
    forall i | 0 <= i < |r|
      ensures r[i].next == After(r, i)
    {
      var j := if i < k then i else i + 1;
      assert s[j].next == After(s, if j + 1 == k then k else j);
    }
  }

  lemma RemoveKeeps(upd: seq<NetUpdate>, emp: seq<NetUpdate>, sched: seq<Update>, k: nat)
    requires k < |upd| && NoDup(upd) && Apart(upd, emp) && Tells(upd, sched)
    ensures NoDup(RemoveAt(upd, k)) && Apart(RemoveAt(upd, k), emp)
    ensures Tells(RemoveAt(upd, k), RemoveAt(sched, k))
    ensures upd[k] !in RemoveAt(upd, k) && upd[k] !in emp
  {
  }

  lemma ChainPush(node: NetUpdate, s: seq<NetUpdate>, head: NetUpdate?)
    requires Chain(s, head) && node.next == head
    ensures Chain([node] + s, node)
  {
    var r := [node] + s;
    forall i | 0 <= i < |r|
      ensures r[i].next == After(r, i)
    {
      if i > 0 {
        assert s[i - 1].next == After(s, i - 1);
      }
    }
  }

  lemma ChainAppend(s: seq<NetUpdate>, head: NetUpdate, u: NetUpdate)
    requires s != [] && s[0] == head && s[|s| - 1].next == u && u.next == null
    requires forall i {:trigger s[i].next} :: 0 <= i < |s| - 1 ==> s[i].next == After(s, i)
    ensures Chain(s + [u], head)
  {
    var r := s + [u];
    forall i | 0 <= i < |r|
      ensures r[i].next == After(r, i)
    {
      if i < |s| {
        assert r[i].next == s[i].next;
      }
    }
  }

  lemma ChainPop(s: seq<NetUpdate>, head: NetUpdate?)
    requires Chain(s, head) && s != []
    ensures Chain(s[1..], s[0].next)
  {
    var r := s[1..];
    assert s[0].next == After(s, 0);
    forall i | 0 <= i < |r|
      ensures r[i].next == After(r, i)
    {
      assert s[i + 1].next == After(s, i + 1);
    }
  }

  lemma {:induction false} CountNodes(s: seq<NetUpdate>)
    requires NoDup(s)
    ensures |set x | x in s| == |s|
  {
    if s != [] {
      CountNodes(s[1..]);
      assert (set x | x in s) == {s[0]} + set x | x in s[1..];
    }
  }

  /** A subset with as many elements is the whole set. */
  lemma FullSubset<T>(a: set<T>, b: set<T>)
    requires a <= b && |a| == |b|
    ensures a == b
  {
    assert |b - a| == |b| - |a|;
  }

  /** `allocNetUpdateBlock`: a chain of cleared nodes. */
  method NewBlock(len: nat) returns (head: NetUpdate, ghost block: seq<NetUpdate>)
    requires len > 0
    ensures |block| == len && Chain(block, head) && NoDup(block) && Cleared(block)
    ensures forall i :: 0 <= i < len ==> fresh(block[i])
  {
    head := new NetUpdate();
    block := [head];
    var tail := head;
    for n := 1 to len
      invariant |block| == n && block[n - 1] == tail
      invariant forall i :: 0 <= i < n ==> fresh(block[i])
      invariant Chain(block, head) && NoDup(block) && Cleared(block)
    {
      var u := new NetUpdate();
      ghost var was := block;
      assert u !in was && forall i {:trigger was[i].next} :: 0 <= i < n - 1 ==> was[i].next == After(was, i);
      tail.next := u;
      ChainAppend(was, head, u);
      tail := u;
      block := was + [u];
    }
  }

  lemma CancelStep(s: seq<Update>, n: nat, d: int, k: nat)
    requires k < |s|
    ensures s[k].target == n && s[k].delay >= d ==>
              s[..k] + Cancel(s[k..], n, d) == RemoveAt(s, k)[..k] + Cancel(RemoveAt(s, k)[k..], n, d)
    ensures !(s[k].target == n && s[k].delay >= d) ==>
              s[..k] + Cancel(s[k..], n, d) == s[..k + 1] + Cancel(s[k + 1..], n, d)
  {
    var r := RemoveAt(s, k);
    assert r[..k] == s[..k] && r[k..] == s[k + 1..] == s[k..][1..];
    assert s[..k + 1] == s[..k] + [s[k]];
  }

  lemma FireStep(nets: seq<Net>, s: seq<Update>, k: nat)
    requires k < |s| && Targets(s, |nets|)
    ensures s[k].delay - 1 <= 0 ==>
              Fire(nets, s[k..]) == Fire(Write(nets, s[k].target, s[k].val), RemoveAt(s, k)[k..])
    ensures s[k].delay - 1 > 0 ==>
              Fire(nets, s[k..]) == Fire(nets, s[k := s[k].(delay := s[k].delay - 1)][k + 1..])
  {
    assert RemoveAt(s, k)[k..] == s[k + 1..] == s[k..][1..];
    assert s[k := s[k].(delay := s[k].delay - 1)][k + 1..] == s[k + 1..];
  }

  lemma AgeStep(s: seq<Update>, k: nat)
    requires k < |s|
    ensures s[k].delay - 1 <= 0 ==>
              s[..k] + Age(s[k..]) == RemoveAt(s, k)[..k] + Age(RemoveAt(s, k)[k..])
    ensures s[k].delay - 1 > 0 ==>
              var r := s[k := s[k].(delay := s[k].delay - 1)];
              s[..k] + Age(s[k..]) == r[..k + 1] + Age(r[k + 1..])
  {
    var r := RemoveAt(s, k);
    assert r[..k] == s[..k] && r[k..] == s[k + 1..] == s[k..][1..];
    var q := s[k := s[k].(delay := s[k].delay - 1)];
    assert q[..k + 1] == s[..k] + [q[k]] && q[k + 1..] == s[k + 1..];
  }

  lemma QuadSlot(chip: Chip, nets: seq<Net>, i: nat)
    requires Wired(chip, |nets|) && Quad(chip.kind) && i < 4
    ensures SlotDrive(chip, nets, i) ==
              if InChanged(chip, nets, i * 2) || InChanged(chip, nets, i * 2 + 1)
              then Drive(Gate(chip.kind, In(chip, nets, i * 2), In(chip, nets, i * 2 + 1)),
                         if chip.kind.HC86? then 11 else 7)
              else Keep
  {
  }

  lemma AdderSlot(chip: Chip, nets: seq<Net>, k: nat)
    requires Wired(chip, |nets|) && chip.kind.HC283? && k < 5
    requires InChanged(chip, nets, 8) || AnyChanged(chip, nets, 0, 8)
    ensures SlotDrive(chip, nets, k) ==
              Drive(ToBits(AdderSum(chip, nets), 5)[k], AdderDelay(InChanged(chip, nets, 8), k))
    ensures SlotTarget(chip, k) == chip.out[k]
  {
  }

  lemma MuxSlot(chip: Chip, nets: seq<Net>, k: nat)
    requires Wired(chip, |nets|) && chip.kind.AC153? && k < 2
    requires !In(chip, nets, 10) && !In(chip, nets, 11)
    ensures SlotDrive(chip, nets, k) ==
              var p := k + BitVal(In(chip, nets, 8)) * 2 + BitVal(In(chip, nets, 9)) * 4;
              if InChanged(chip, nets, 8) || InChanged(chip, nets, 9) then Drive(In(chip, nets, p), 7)
              else if InChanged(chip, nets, p) then Drive(In(chip, nets, p), 6)
              else Keep
  {
  }

  lemma HighStep(chip: Chip, nets: seq<Net>, i: nat)
    requires Wired(chip, |nets|) && i < |chip.inp|
    ensures AllHigh(chip, nets, 0, i + 1) <==> AllHigh(chip, nets, 0, i) && In(chip, nets, i)
  {
  }

  /** The values of nets `lo .. hi`, least significant first. */
  function Vals(nets: seq<Net>, lo: nat, hi: nat): (r: seq<bool>)
    requires lo <= hi <= |nets|
    ensures |r| == hi - lo && forall i :: 0 <= i < |r| ==> r[i] == nets[lo + i].val
    decreases hi - lo
  {
    if lo == hi then [] else [nets[lo].val] + Vals(nets, lo + 1, hi)
  }

  lemma ValsNext(nets: seq<Net>, lo: nat, hi: nat)
    requires lo < hi <= |nets|
    ensures Uns(Vals(nets, lo, hi)) == BitVal(nets[lo].val) + 2 * Uns(Vals(nets, lo + 1, hi))
  {
    assert Vals(nets, lo, hi)[1..] == Vals(nets, lo + 1, hi);
  }

  /** One bit shifted in from the right, on 32 bits. */
  lemma ShiftIn(x: nat, b: bool)
    ensures x % UNSIGNED * 2 % UNSIGNED + BitVal(b) == (BitVal(b) + 2 * x) % UNSIGNED
  {
    var q, r := x / UNSIGNED, x % UNSIGNED;
    if 2 * r < UNSIGNED {
      DivMod(2 * r, UNSIGNED, 0, 2 * r);
      DivMod(BitVal(b) + 2 * x, UNSIGNED, 2 * q, 2 * r + BitVal(b));
    } else {
      DivMod(2 * r, UNSIGNED, 1, 2 * r - UNSIGNED);
      DivMod(BitVal(b) + 2 * x, UNSIGNED, 2 * q + 1, 2 * r - UNSIGNED + BitVal(b));
    }
  }

  lemma NarrowBus(bits: seq<bool>)
    ensures |bits| <= 32 ==> Uns(bits) % UNSIGNED == Uns(bits)
    ensures bits == [] ==> Uns(bits) == 0
  {
    UnsBound(bits);
    if |bits| <= 32 {
      UnsignedPower(|bits|);
    }
  }

  function Pins(chip: Chip, nets: seq<Net>, lo: nat, hi: nat): seq<bool>
    requires Wired(chip, |nets|) && lo <= hi <= |chip.inp|
    decreases hi - lo
  {
    if lo == hi then [] else [In(chip, nets, lo)] + Pins(chip, nets, lo + 1, hi)
  }

  lemma NibblePins(chip: Chip, nets: seq<Net>)
    requires Wired(chip, |nets|) && chip.kind.HC283?
    ensures AdderSum(chip, nets) ==
              Uns(Pins(chip, nets, 0, 4)) + Uns(Pins(chip, nets, 4, 8)) + BitVal(In(chip, nets, 8))
  {
    hide Uns, BitVal, In;
    assert Pins(chip, nets, 2, 4) == [In(chip, nets, 2), In(chip, nets, 3)];
    assert Pins(chip, nets, 0, 4) == [In(chip, nets, 0), In(chip, nets, 1), In(chip, nets, 2), In(chip, nets, 3)];
    assert Pins(chip, nets, 6, 8) == [In(chip, nets, 6), In(chip, nets, 7)];
    assert Pins(chip, nets, 4, 8) == [In(chip, nets, 4), In(chip, nets, 5), In(chip, nets, 6), In(chip, nets, 7)];
  }

  lemma CarryStep(chip: Chip, nets: seq<Net>, i: nat)
    requires Wired(chip, |nets|) && chip.kind.AC161? && i < 4
    ensures CarryInto(chip, nets, i + 1) <==> CarryInto(chip, nets, i) && Out(chip, nets, i)
  {
  }

  lemma CarryDown(chip: Chip, nets: seq<Net>)
    requires Wired(chip, |nets|) && chip.kind.AC161?
    ensures CarryInto(chip, nets, 0) && (CarryInto(chip, nets, 1) <==> Out(chip, nets, 0))
    ensures CarryInto(chip, nets, 2) <==> CarryInto(chip, nets, 1) && Out(chip, nets, 1)
    ensures CarryInto(chip, nets, 3) <==> CarryInto(chip, nets, 2) && Out(chip, nets, 2)
  {
  }

  /** Once the carry has died, counting posts to no further bit. */
  lemma CarryDied(chip: Chip, nets: seq<Net>, i: nat)
    requires Wired(chip, |nets|) && chip.kind.AC161? && Counting(chip, nets)
    requires i <= 4 && (i < 4 ==> !CarryInto(chip, nets, i))
    ensures forall k :: i + 7 <= k < 11 ==> SlotDrive(chip, nets, k).Keep?
  {
  }

  /** The schedules that a chip's slots lead through, one after the other. */
  ghost predicate IsPlan(chip: Chip, nets: seq<Net>, plan: seq<seq<Update>>) {
    && Wired(chip, |nets|) && |plan| == SlotCount(chip.kind) + 1
    && forall k {:trigger PostSlot(chip, nets, plan[k], k)} :: 0 <= k < |plan| - 1 ==>
         plan[k + 1] == PostSlot(chip, nets, plan[k], k)
  }

  lemma MakePlan(chip: Chip, nets: seq<Net>, s: seq<Update>) returns (plan: seq<seq<Update>>)
    requires Wired(chip, |nets|)
    ensures IsPlan(chip, nets, plan) && plan[0] == s && plan[|plan| - 1] == DriveFrom(chip, nets, s, 0)
  {
    plan := [s];
    for k := 0 to SlotCount(chip.kind)
      invariant |plan| == k + 1 && plan[0] == s
      invariant DriveFrom(chip, nets, plan[k], k) == DriveFrom(chip, nets, s, 0)
      invariant forall j {:trigger PostSlot(chip, nets, plan[j], j)} :: 0 <= j < k ==>
                  plan[j + 1] == PostSlot(chip, nets, plan[j], j)
    {
      plan := plan + [PostSlot(chip, nets, plan[k], k)];
    }
  }

  /** The schedules that stepping the chips leads through, one after the other. */
  ghost predicate IsRound(chips: seq<Chip>, nets: seq<Net>, plan: seq<seq<Update>>) {
    && (forall j :: 0 <= j < |chips| ==> Wired(chips[j], |nets|)) && |plan| == |chips| + 1
    && forall i {:trigger DriveFrom(chips[i], nets, plan[i], 0)} :: 0 <= i < |chips| ==>
         plan[i + 1] == DriveFrom(chips[i], nets, plan[i], 0)
  }

  lemma MakeRound(c: Circuit, s: State) returns (plan: seq<seq<Update>>)
    requires WellFormed(c) && |s.nets| == c.total
    ensures IsRound(c.chips, s.nets, plan) && plan[0] == s.sched && plan[|c.chips|] == Posted(c, s)
  {
    hide DriveFrom;
    plan := [s.sched];
    for i := 0 to |c.chips|
      invariant |plan| == i + 1 && plan[0] == s.sched
      invariant DriveChips(c.chips, s.nets, plan[i], i) == Posted(c, s)
      invariant forall j {:trigger DriveFrom(c.chips[j], s.nets, plan[j], 0)} :: 0 <= j < i ==>
                  plan[j + 1] == DriveFrom(c.chips[j], s.nets, plan[j], 0)
    {
      plan := plan + [DriveFrom(c.chips[i], s.nets, plan[i], 0)];
    }
  }

  lemma Skip(chip: Chip, nets: seq<Net>, plan: seq<seq<Update>>, k: nat)
    requires IsPlan(chip, nets, plan) && k < SlotCount(chip.kind) && SlotDrive(chip, nets, k).Keep?
    ensures plan[k + 1] == plan[k]
  {
    assert plan[k + 1] == PostSlot(chip, nets, plan[k], k);
  }

  lemma {:induction false} SkipTo(chip: Chip, nets: seq<Net>, plan: seq<seq<Update>>, k: nat, j: nat)
    requires IsPlan(chip, nets, plan) && k <= j <= SlotCount(chip.kind)
    requires forall i :: k <= i < j ==> SlotDrive(chip, nets, i).Keep?
    ensures plan[j] == plan[k]
    decreases j - k
  {
    if k < j {
      Skip(chip, nets, plan, k);
      SkipTo(chip, nets, plan, k + 1, j);
    }
  }

  class Simulator {
    const circ: Circuit
    const nets: array<Net>
    var updateHead: NetUpdate?
    var emptyHead: NetUpdate?
    var elapsedTime: nat
    ghost var upd: seq<NetUpdate>    // the nodes of the update list, from the head
    ghost var emp: seq<NetUpdate>    // the nodes of the empty list, from the head
    ghost var pool: set<NetUpdate>   // every node ever allocated
    ghost var blocks: nat            // how many blocks were allocated
    ghost var sched: seq<Update>     // what the update list says

    /** Two acyclic lists without a node in common. */
    ghost predicate Lists()
      reads `updateHead, `emptyHead, `upd, `emp, `pool, `sched, upd, emp
    {
      && Chain(upd, updateHead) && Chain(emp, emptyHead)
      && NoDup(upd) && NoDup(emp) && Apart(upd, emp)
      && (forall i :: 0 <= i < |upd| ==> upd[i] in pool)
      && (forall i :: 0 <= i < |emp| ==> emp[i] in pool)
      && Cleared(emp) && Tells(upd, sched)
    }

    /** The lists together hold every node ever allocated. */
    ghost predicate Shape()
      reads this, upd, emp
    {
      && Lists() && |upd| == |sched| && |upd| + |emp| == |pool| == BLOCK * blocks
      && WellFormed(circ) && nets.Length == circ.total && Targets(sched, circ.total)
    }

    /** Every node ever allocated is in exactly one of the two lists, once, and the lists add up to the blocks. */
    lemma NodesConserved()
      requires Shape()
      ensures forall x :: x in pool ==> (x in upd) != (x in emp)
      ensures NoDup(upd) && NoDup(emp) && |upd| + |emp| == BLOCK * blocks
    {
      CountNodes(upd);
      CountNodes(emp);
      var u, e := set x | x in upd, set x | x in emp;
      assert u !! e && u + e <= pool;
      FullSubset(u + e, pool);
    }

    ghost function Now(): State
      reads this, nets
    {
      State(nets[..], sched)
    }

    ghost predicate Valid()
      reads this, upd, emp, nets
    {
      Shape() && Ok(circ, Now())
    }

    /** An already built circuit: `vals` are the declared values of its nets. */
    constructor (circ: Circuit, vals: seq<bool>)
      requires WellFormed(circ) && |vals| == circ.netLen
      ensures Valid() && fresh(pool) && fresh(nets) && this.circ == circ && blocks == 1
      ensures Initial(circ, Now()) && elapsedTime == 0
      ensures forall n :: 0 <= n < circ.netLen ==> nets[n].val == vals[n]
    {
      this.circ := circ;
      nets := new Net[circ.total](i requires 0 <= i < circ.total =>
        if i < circ.netLen && i < |vals| then Net(vals[i], true) else Net(false, false));
      updateHead, emptyHead, elapsedTime := null, null, 0;
      upd, emp, pool, sched, blocks := [], [], {}, [], 0;
      new;
      AllocBlock();
    }

    /** Make a new block the empty list. */
    method Adopt(head: NetUpdate, ghost block: seq<NetUpdate>)
      requires Shape() && emp == [] && |block| == BLOCK
      requires Chain(block, head) && NoDup(block) && Cleared(block)
      requires forall i :: 0 <= i < |block| ==> block[i] !in pool
      modifies this`emptyHead, this`emp, this`pool, this`blocks
      ensures Shape() && emp == block && blocks == old(blocks) + 1
      ensures pool == old(pool) + set x | x in block
    {
      CountNodes(block);
      ghost var nodes := set x | x in block;
      assert nodes !! pool;
      emptyHead := head;
      emp := block;
      pool := pool + nodes;
      blocks := blocks + 1;
    }

    /** `allocNetUpdateBlock(512)`, when the empty list has run dry. */
    method AllocBlock()
      requires Shape() && emptyHead == null
      modifies this`emptyHead, this`emp, this`pool, this`blocks
      ensures Shape() && emptyHead != null && blocks == old(blocks) + 1
      ensures old(pool) <= pool && fresh(pool - old(pool))
    {
      var head: NetUpdate;
      ghost var block: seq<NetUpdate>;
      head, block := NewBlock(BLOCK);
      Adopt(head, block);
    }

    /** Take the `k`-th pending update out of the update list. */
    method Unlink(prev: NetUpdate?, temp: NetUpdate, ghost k: nat)
      requires Lists() && k < |upd| && upd[k] == temp
      requires prev == if k == 0 then null else upd[k - 1]
      modifies this`updateHead, this`upd, this`sched, upd
      ensures Lists() && temp !in upd && temp !in emp
      ensures upd == RemoveAt(old(upd), k) && sched == RemoveAt(old(sched), k)
    {
      assert upd[k].next == After(upd, k);
      if prev == null {
        updateHead := temp.next;
      } else {
        prev.next := temp.next;
      }
      RemoveKeeps(upd, emp, sched, k);
      ChainUnlink(upd, updateHead, k);
      upd := RemoveAt(upd, k);
      sched := RemoveAt(sched, k);
    }

    /** Clear a node that is in neither list and put it in front of the empty list. */
    method Discard(temp: NetUpdate)
      requires Lists() && temp in pool && temp !in upd && temp !in emp
      modifies this`emptyHead, this`emp, temp
      ensures Lists() && emp == [temp] + old(emp)
    {
      temp.next := emptyHead;
      ChainPush(temp, emp, emptyHead);
      emptyHead := temp;
      emp := [temp] + emp;
      temp.target, temp.val, temp.delay := None, false, 0;
    }

    /** Take the first node off the empty list. */
    method TakeEmpty() returns (node: NetUpdate)
      requires Lists() && emptyHead != null
      modifies this`emptyHead, this`emp
      ensures Lists() && old(emp) == [node] + emp && node in pool && node !in upd && node !in emp
    {
      node := emptyHead;
      ChainPop(emp, emptyHead);
      emptyHead := node.next;
      emp := emp[1..];
    }

    /** Fill in a node that is in neither list and put it in front of the update list. */
    method Enlist(node: NetUpdate, n: nat, v: bool, d: int)
      requires Lists() && node in pool && node !in upd && node !in emp
      modifies this`updateHead, this`upd, this`sched, node
      ensures Lists() && upd == [node] + old(upd) && sched == [Update(n, v, d)] + old(sched)
    {
      node.next := updateHead;
      ChainPush(node, upd, updateHead);
      updateHead := node;
      upd := [node] + upd;
      node.target, node.val, node.delay := Some(n), v, d;
      sched := [Update(n, v, d)] + sched;
    }

    /** The part of `addNetUpdate` after the loop, once there is an empty node. */
    method PostFront(n: nat, v: bool, d: int)
      requires Shape() && emptyHead != null && n < circ.total
      modifies this`updateHead, this`emptyHead, this`upd, this`emp, this`sched, pool
      ensures Shape() && sched == [Update(n, v, d)] + old(sched)
    {
      var node := TakeEmpty();
      Enlist(node, n, v, d);
    }

    method Release(prev: NetUpdate?, temp: NetUpdate, ghost k: nat)
      requires Shape() && k < |upd| && upd[k] == temp
      requires prev == if k == 0 then null else upd[k - 1]
      modifies this`updateHead, this`emptyHead, this`upd, this`emp, this`sched, upd
      ensures Shape() && upd == RemoveAt(old(upd), k) && sched == RemoveAt(old(sched), k)
    {
      Unlink(prev, temp, k);
      Discard(temp);
    }

    /** The first loop of `addNetUpdate`. */
    method CancelPending(n: nat, d: int)
      requires Shape()
      modifies this`updateHead, this`emptyHead, this`upd, this`emp, this`sched, pool
      ensures Shape() && sched == Cancel(old(sched), n, d)
    {
      var temp, prev: NetUpdate? := updateHead, null;
      ghost var k := 0;
      while temp != null
        invariant Shape()
        invariant k <= |upd| && temp == if k < |upd| then upd[k] else null
        invariant prev == if k == 0 then null else upd[k - 1]
        invariant Cancel(old(sched), n, d) == sched[..k] + Cancel(sched[k..], n, d)
        decreases |upd| - k
      {
        CancelStep(sched, n, d, k);
        if temp.target == Some(n) && temp.delay >= d {
          Release(prev, temp, k);
        } else {
          prev := temp;
          k := k + 1;
        }
        temp := if prev == null then updateHead else prev.next;
        assert k > 0 ==> upd[k - 1].next == After(upd, k - 1);
      }
    }

    lemma NoEmptyNode()
      requires Shape()
      ensures emptyHead == null <==> emp == []
    {
    }

    /** `addNetUpdate`: cancel what is due for the net at `d` or later, then post the new update. */
    method AddNetUpdate(target: Option<nat>, v: bool, d: int)
      requires Shape() && (target.Some? ==> target.value < circ.total)
      modifies this, pool
      ensures Shape() && old(pool) <= pool && fresh(pool - old(pool)) && elapsedTime == old(elapsedTime)
      ensures sched == if target.Some? then Post(old(sched), target.value, v, d) else old(sched)
      // a block is allocated only when cancelling left no empty node
      ensures blocks == if target.Some? && |Cancel(old(sched), target.value, d)| == BLOCK * old(blocks)
                        then old(blocks) + 1 else old(blocks)
    {
      hide Lists;
      if target.None? {
        return;
      }
      var n := target.value;
      CancelPending(n, d);
      NoEmptyNode();
      if emptyHead == null {
        AllocBlock();
      }
      PostFront(n, v, d);
    }

    // ---- Ageing ----

    /** `--update->delay` */
    method Decrement(update: NetUpdate, ghost k: nat)
      requires Shape() && k < |upd| && upd[k] == update
      modifies this`sched, update`delay
      ensures Shape() && sched == old(sched)[k := old(sched)[k].(delay := old(sched)[k].delay - 1)]
      ensures update.delay == old(sched)[k].delay - 1
    {
      update.delay := update.delay - 1;
      sched := sched[k := sched[k].(delay := sched[k].delay - 1)];
    }

    method WriteNet(n: nat, v: bool)
      requires n < nets.Length
      modifies nets
      ensures nets[..] == Write(old(nets[..]), n, v)
    {
      if nets[n].val != v {
        nets[n] := nets[n].(changed := true);
      }
      nets[n] := nets[n].(val := v);
    }

    /** `stepNetUpdate`: returns the node whose link leads to the next update. */
    method StepNetUpdate(update: NetUpdate, prev: NetUpdate?, ghost k: nat) returns (last: NetUpdate?)
      requires Shape() && k < |upd| && upd[k] == update
      requires prev == if k == 0 then null else upd[k - 1]
      modifies this`updateHead, this`emptyHead, this`upd, this`emp, this`sched, pool, nets
      ensures Shape()
      ensures old(sched)[k].delay - 1 <= 0 ==>
                last == prev && upd == RemoveAt(old(upd), k) && sched == RemoveAt(old(sched), k)
                && nets[..] == Write(old(nets[..]), old(sched)[k].target, old(sched)[k].val)
      ensures old(sched)[k].delay - 1 > 0 ==>
                last == update && upd == old(upd) && nets[..] == old(nets[..])
                && sched == old(sched)[k := old(sched)[k].(delay := old(sched)[k].delay - 1)]
    {
      Decrement(update, k);
      if update.delay <= 0 {
        assert Says(upd[k], sched[k]);
        WriteNet(update.target.value, update.val);
        Release(prev, update, k);
        last := prev;
      } else {
        last := update;
      }
    }

    /** One round of the ageing loop; `k` updates are already aged. */
    method AgeNext(temp: NetUpdate, prev: NetUpdate?, ghost k: nat) returns (last: NetUpdate?, ghost k': nat)
      requires Shape() && k < |upd| && upd[k] == temp
      requires prev == if k == 0 then null else upd[k - 1]
      modifies this`updateHead, this`emptyHead, this`upd, this`emp, this`sched, pool, nets
      ensures Shape() && k' <= |upd| && |upd| - k' < |old(upd)| - k
      ensures last == if k' == 0 then null else upd[k' - 1]
      ensures sched[..k'] + Age(sched[k'..]) == old(sched)[..k] + Age(old(sched)[k..])
      ensures Fire(nets[..], sched[k'..]) == Fire(old(nets[..]), old(sched)[k..])
    {
      hide Lists;
      AgeStep(sched, k);
      FireStep(nets[..], sched, k);
      ghost var stays := sched[k].delay - 1 > 0;
      last := StepNetUpdate(temp, prev, k);
      k' := if stays then k + 1 else k;
    }

    /** The ageing loop of `stepCircuit`. */
    method AgeUpdates()
      requires Shape()
      modifies this`updateHead, this`emptyHead, this`upd, this`emp, this`sched, pool, nets
      ensures Shape() && sched == Age(old(sched)) && nets[..] == Fire(old(nets[..]), old(sched))
    {
      var temp, last: NetUpdate? := updateHead, null;
      ghost var k: nat := 0;
      ghost var aged, fired := Age(sched), Fire(nets[..], sched);
      assert sched[..0] + Age(sched[0..]) == aged;
      while temp != null
        invariant Shape()
        invariant k <= |upd| && temp == if k < |upd| then upd[k] else null
        invariant last == if k == 0 then null else upd[k - 1]
        invariant sched[..k] + Age(sched[k..]) == aged && Fire(nets[..], sched[k..]) == fired
        decreases |upd| - k
      {
        last, k := AgeNext(temp, last, k);
        temp := if last == null then updateHead else last.next;
        assert k > 0 ==> upd[k - 1].next == After(upd, k - 1);
      }
    }

    // ---- The chips' step functions ----

    /** The chip has handled its slots below `k`; nets do not change while chips post. */
    ghost predicate At(chip: Chip, now: seq<Net>, plan: seq<seq<Update>>, k: int)
      reads this, upd, emp, nets
    {
      && Shape() && ChipFits(circ, chip) && nets[..] == now && IsPlan(chip, now, plan)
      && 0 <= k <= SlotCount(chip.kind) && sched == plan[k]
    }

    /** A chip's call of `addNetUpdate` for its `k`-th slot. */
    method PostUpdate(chip: Chip, target: Option<nat>, v: bool, d: int,
                      ghost k: nat, ghost now: seq<Net>, ghost plan: seq<seq<Update>>)
      requires At(chip, now, plan, k) && k < SlotCount(chip.kind)
      requires target == SlotTarget(chip, k) && SlotDrive(chip, now, k) == Drive(v, d)
      modifies this, pool
      ensures At(chip, now, plan, k + 1) && old(pool) <= pool && fresh(pool - old(pool)) &&
              elapsedTime == old(elapsedTime)
    {
      hide Lists;
      assert plan[k + 1] == PostSlot(chip, now, plan[k], k);
      AddNetUpdate(target, v, d);
    }

    /** `stepCLK40M` */
    method StepCLK40M(chip: Chip, ghost now: seq<Net>, ghost plan: seq<seq<Update>>)
      requires At(chip, now, plan, 0) && chip.kind.CLK40M?
      modifies this, pool
      ensures At(chip, now, plan, SlotCount(chip.kind)) && old(pool) <= pool && fresh(pool - old(pool)) &&
              elapsedTime == old(elapsedTime)
    {
      hide Lists;
      var out := chip.out[0].value;
      if nets[chip.inp[0]].val && (nets[chip.inp[0]].changed || nets[out].changed) {
        var delay := if nets[out].val then 12 else 13;
        PostUpdate(chip, chip.out[0], !nets[out].val, delay, 0, now, plan);
      } else {
        Skip(chip, now, plan, 0);
      }
    }

    /** `step74HC00`, `step74HC02`, `step74HC08`, `step74HC32` and `step74HC86`, which differ in gate and delay */
    method StepQuad(chip: Chip, ghost now: seq<Net>, ghost plan: seq<seq<Update>>)
      requires At(chip, now, plan, 0) && Quad(chip.kind)
      modifies this, pool
      ensures At(chip, now, plan, SlotCount(chip.kind)) && old(pool) <= pool && fresh(pool - old(pool)) &&
              elapsedTime == old(elapsedTime)
    {
      hide Lists;
      for i := 0 to 4
        invariant At(chip, now, plan, i) && old(pool) <= pool && fresh(pool - old(pool)) &&
                  elapsedTime == old(elapsedTime)
      {
        var a, b := nets[chip.inp[i * 2]], nets[chip.inp[i * 2 + 1]];
        QuadSlot(chip, now, i);
        if a.changed || b.changed {
          var val := Gate(chip.kind, a.val, b.val);
          PostUpdate(chip, chip.out[i], val, if chip.kind.HC86? then 11 else 7, i, now, plan);
        } else {
          Skip(chip, now, plan, i);
        }
      }
    }

    /** `step74HC30` */
    method Step74HC30(chip: Chip, ghost now: seq<Net>, ghost plan: seq<seq<Update>>)
      requires At(chip, now, plan, 0) && chip.kind.HC30?
      modifies this, pool
      ensures At(chip, now, plan, SlotCount(chip.kind)) && old(pool) <= pool && fresh(pool - old(pool)) &&
              elapsedTime == old(elapsedTime)
    {
      hide Lists;
      var val := true;
      for i := 0 to 8
        invariant At(chip, now, plan, 0) && sched == old(sched) && pool == old(pool) && elapsedTime == old(elapsedTime)
        invariant val <==> AllHigh(chip, now, 0, i)
        invariant forall p :: 0 <= p < i ==> !InChanged(chip, now, p)
      {
        if nets[chip.inp[i]].changed {
          for j := i to 8
            invariant At(chip, now, plan, 0) && pool == old(pool) && elapsedTime == old(elapsedTime)
            invariant val <==> AllHigh(chip, now, 0, j)
          {
            HighStep(chip, now, j);
            val := val && nets[chip.inp[j]].val;
          }
          assert InChanged(chip, now, i);
          PostUpdate(chip, chip.out[0], !val, 10, 0, now, plan);
          return;
        }
        HighStep(chip, now, i);
        val := val && nets[chip.inp[i]].val;
      }
      Skip(chip, now, plan, 0);
    }

    /** `step74HC04` */
    method Step74HC04(chip: Chip, ghost now: seq<Net>, ghost plan: seq<seq<Update>>)
      requires At(chip, now, plan, 0) && chip.kind.HC04?
      modifies this, pool
      ensures At(chip, now, plan, SlotCount(chip.kind)) && old(pool) <= pool && fresh(pool - old(pool)) &&
              elapsedTime == old(elapsedTime)
    {
      hide Lists;
      for i := 0 to 6
        invariant At(chip, now, plan, i) && old(pool) <= pool && fresh(pool - old(pool)) &&
                  elapsedTime == old(elapsedTime)
      {
        if nets[chip.inp[i]].changed {
          PostUpdate(chip, chip.out[i], !nets[chip.inp[i]].val, 9, i, now, plan);
        } else {
          Skip(chip, now, plan, i);
        }
      }
    }

    /** `step74HC21` */
    method Step74HC21(chip: Chip, ghost now: seq<Net>, ghost plan: seq<seq<Update>>)
      requires At(chip, now, plan, 0) && chip.kind.HC21?
      modifies this, pool
      ensures At(chip, now, plan, SlotCount(chip.kind)) && old(pool) <= pool && fresh(pool - old(pool)) &&
              elapsedTime == old(elapsedTime)
    {
      hide Lists;
      for i := 0 to 2
        invariant At(chip, now, plan, i) && old(pool) <= pool && fresh(pool - old(pool)) &&
                  elapsedTime == old(elapsedTime)
      {
        var a, b := nets[chip.inp[i * 4]], nets[chip.inp[i * 4 + 1]];
        var c, d := nets[chip.inp[i * 4 + 2]], nets[chip.inp[i * 4 + 3]];
        FourPins(chip, now, i);
        if a.changed || b.changed || c.changed || d.changed {
          var val := a.val && b.val && c.val && d.val;
          PostUpdate(chip, chip.out[i], val, 12, i, now, plan);
        } else {
          Skip(chip, now, plan, i);
        }
      }
    }

    /** `step74AC157` */
    method Step74AC157(chip: Chip, ghost now: seq<Net>, ghost plan: seq<seq<Update>>)
      requires At(chip, now, plan, 0) && chip.kind.AC157?
      modifies this, pool
      ensures At(chip, now, plan, SlotCount(chip.kind)) && old(pool) <= pool && fresh(pool - old(pool)) &&
              elapsedTime == old(elapsedTime)
    {
      hide Lists;
      if nets[chip.inp[9]].changed && nets[chip.inp[9]].val {
        for i := 0 to 4
          invariant At(chip, now, plan, i) && old(pool) <= pool && fresh(pool - old(pool)) &&
                    elapsedTime == old(elapsedTime)
        {
          PostUpdate(chip, chip.out[i], false, 6, i, now, plan);
        }
      } else if !nets[chip.inp[9]].val {
        var offset := BitVal(nets[chip.inp[8]].val) * 4;
        if nets[chip.inp[8]].changed {
          for i := 0 to 4
            invariant At(chip, now, plan, i) && old(pool) <= pool && fresh(pool - old(pool)) &&
                      elapsedTime == old(elapsedTime)
          {
            PostUpdate(chip, chip.out[i], nets[chip.inp[i + offset]].val, 6, i, now, plan);
          }
        } else {
          for i := 0 to 4
            invariant At(chip, now, plan, i) && old(pool) <= pool && fresh(pool - old(pool)) &&
                      elapsedTime == old(elapsedTime)
          {
            if nets[chip.inp[i + offset]].changed {
              PostUpdate(chip, chip.out[i], nets[chip.inp[i + offset]].val, 4, i, now, plan);
            } else {
              Skip(chip, now, plan, i);
            }
          }
        }
      } else {
        SkipTo(chip, now, plan, 0, 4);
      }
    }

    /** `step74AC153` with both enables low */
    method Step74AC153Select(chip: Chip, ghost now: seq<Net>, ghost plan: seq<seq<Update>>)
      requires At(chip, now, plan, 0) && chip.kind.AC153? && Enabled(chip, now)
      modifies this, pool
      ensures At(chip, now, plan, 2) && old(pool) <= pool && fresh(pool - old(pool)) && elapsedTime == old(elapsedTime)
    {
      hide Lists;
      var offset := BitVal(nets[chip.inp[8]].val) * 2 + BitVal(nets[chip.inp[9]].val) * 4;
      if nets[chip.inp[8]].changed || nets[chip.inp[9]].changed {
        for i := 0 to 2
          invariant At(chip, now, plan, i) && old(pool) <= pool && fresh(pool - old(pool)) &&
                    elapsedTime == old(elapsedTime)
        {
          MuxSlot(chip, now, i);
          PostUpdate(chip, chip.out[i], nets[chip.inp[i + offset]].val, 7, i, now, plan);
        }
      } else {
        for i := 0 to 2
          invariant At(chip, now, plan, i) && old(pool) <= pool && fresh(pool - old(pool)) &&
                    elapsedTime == old(elapsedTime)
        {
          MuxSlot(chip, now, i);
          if nets[chip.inp[i + offset]].changed {
            PostUpdate(chip, chip.out[i], nets[chip.inp[i + offset]].val, 6, i, now, plan);
          } else {
            Skip(chip, now, plan, i);
          }
        }
      }
    }

    /** `step74AC153` */
    method Step74AC153(chip: Chip, ghost now: seq<Net>, ghost plan: seq<seq<Update>>)
      requires At(chip, now, plan, 0) && chip.kind.AC153?
      modifies this, pool
      ensures At(chip, now, plan, SlotCount(chip.kind)) && old(pool) <= pool && fresh(pool - old(pool)) &&
              elapsedTime == old(elapsedTime)
    {
      hide Lists;
      var e0, e1 := nets[chip.inp[10]], nets[chip.inp[11]];
      if (e0.changed && e0.val) || (e1.changed && e1.val) {
        for i := 0 to 2
          invariant At(chip, now, plan, i) && old(pool) <= pool && fresh(pool - old(pool)) &&
                    elapsedTime == old(elapsedTime)
        {
          PostUpdate(chip, chip.out[i], false, 6, i, now, plan);
        }
      } else if !e0.val && !e1.val {
        Step74AC153Select(chip, now, plan);
      } else {
        SkipTo(chip, now, plan, 0, 2);
      }
    }

    /** The sum computed by `step74HC283Add`: both nibbles are read most significant bit first. */
    method AddNibbles(chip: Chip, ghost now: seq<Net>) returns (val: nat)
      requires nets.Length == circ.total && nets[..] == now && Wired(chip, circ.total) && chip.kind.HC283?
      ensures val == AdderSum(chip, now)
    {
      var a, b := 0, 0;
      for j := 4 downto 0
        invariant a == Uns(Pins(chip, now, j, 4))
        invariant b == Uns(Pins(chip, now, j + 4, 8))
      {
        a := a * 2 + BitVal(nets[chip.inp[j]].val);
        b := b * 2 + BitVal(nets[chip.inp[j + 4]].val);
      }
      NibblePins(chip, now);
      val := a + b + BitVal(nets[chip.inp[8]].val);
    }

    /** `step74HC283Add` */
    method Step74HC283Add(chip: Chip, carryChanged: bool, ghost now: seq<Net>, ghost plan: seq<seq<Update>>)
      requires At(chip, now, plan, 0) && chip.kind.HC283?
      requires carryChanged == InChanged(chip, now, 8) && (carryChanged || AnyChanged(chip, now, 0, 8))
      modifies this, pool
      ensures At(chip, now, plan, 5) && old(pool) <= pool && fresh(pool - old(pool)) && elapsedTime == old(elapsedTime)
    {
      hide Lists;
      var val := AddNibbles(chip, now);
      ghost var bits := ToBits(val, 5);
      for j := 0 to 5
        invariant At(chip, now, plan, j) && old(pool) <= pool && fresh(pool - old(pool)) &&
                  elapsedTime == old(elapsedTime)
        invariant bits[j..] == ToBits(val, 5 - j)
      {
        assert bits[j] == ToBits(val, 5 - j)[0];
        assert bits[j + 1..] == ToBits(val, 5 - j)[1..];
        AdderSlot(chip, now, j);
        PostUpdate(chip, chip.out[j], val % 2 == 1, AdderDelay(carryChanged, j), j, now, plan);
        val := val / 2;
      }
    }

    /** `step74HC283` */
    method Step74HC283(chip: Chip, ghost now: seq<Net>, ghost plan: seq<seq<Update>>)
      requires At(chip, now, plan, 0) && chip.kind.HC283?
      modifies this, pool
      ensures At(chip, now, plan, SlotCount(chip.kind)) && old(pool) <= pool && fresh(pool - old(pool)) &&
              elapsedTime == old(elapsedTime)
    {
      hide Lists;
      if nets[chip.inp[8]].changed {
        Step74HC283Add(chip, true, now, plan);
      } else {
        for i := 0 to 8
          invariant At(chip, now, plan, 0) && sched == old(sched) && pool == old(pool) &&
                    elapsedTime == old(elapsedTime)
          invariant forall p :: 0 <= p < i ==> !InChanged(chip, now, p)
        {
          if nets[chip.inp[i]].changed {
            assert InChanged(chip, now, i);
            Step74HC283Add(chip, false, now, plan);
            return;
          }
        }
        SkipTo(chip, now, plan, 0, 5);
      }
    }

    /** The clocked outputs of `step74HC377` */
    method Step74HC377Load(chip: Chip, ghost now: seq<Net>, ghost plan: seq<seq<Update>>)
      requires At(chip, now, plan, 9) && chip.kind.HC377?
      modifies this, pool
      ensures At(chip, now, plan, 17) && old(pool) <= pool && fresh(pool - old(pool)) && elapsedTime == old(elapsedTime)
    {
      hide Lists;
      if nets[chip.inp[9]].changed && nets[chip.inp[9]].val && !nets[chip.local + 8].val {
        for i := 0 to 8
          invariant At(chip, now, plan, i + 9) && old(pool) <= pool && fresh(pool - old(pool)) &&
                    elapsedTime == old(elapsedTime)
        {
          PostUpdate(chip, chip.out[i], nets[chip.local + i].val, 13, i + 9, now, plan);
        }
      } else {
        SkipTo(chip, now, plan, 9, 17);
      }
    }

    /** `step74HC377` */
    method Step74HC377(chip: Chip, ghost now: seq<Net>, ghost plan: seq<seq<Update>>)
      requires At(chip, now, plan, 0) && chip.kind.HC377?
      modifies this, pool
      ensures At(chip, now, plan, SlotCount(chip.kind)) && old(pool) <= pool && fresh(pool - old(pool)) &&
              elapsedTime == old(elapsedTime)
    {
      hide Lists;
      for i := 0 to 8
        invariant At(chip, now, plan, i) && old(pool) <= pool && fresh(pool - old(pool)) &&
                  elapsedTime == old(elapsedTime)
      {
        if nets[chip.inp[i]].changed {
          PostUpdate(chip, Some(chip.local + i), nets[chip.inp[i]].val, 5, i, now, plan);
        } else {
          Skip(chip, now, plan, i);
        }
      }
      if nets[chip.inp[8]].changed {
        PostUpdate(chip, Some(chip.local + 8), nets[chip.inp[8]].val, 2, 8, now, plan);
      } else {
        Skip(chip, now, plan, 8);
      }
      Step74HC377Load(chip, now, plan);
    }

    /** `step74AC161Count`: toggle bits while the carry ripples, then predict the ripple output */
    method Step74AC161Count(chip: Chip, ghost now: seq<Net>, ghost plan: seq<seq<Update>>)
      requires At(chip, now, plan, 7) && chip.kind.AC161? && Counting(chip, now) && ReadsConnected(chip, now)
      modifies this, pool
      ensures At(chip, now, plan, 12) && old(pool) <= pool && fresh(pool - old(pool)) && elapsedTime == old(elapsedTime)
    {
      hide Lists;
      var ripple := true;
      var i := 0;
      while i < 4 && ripple
        invariant 0 <= i <= 4 && (ripple <==> CarryInto(chip, now, i))
        invariant At(chip, now, plan, i + 7) && old(pool) <= pool && fresh(pool - old(pool)) &&
                  elapsedTime == old(elapsedTime)
      {
        var out := chip.out[i].value;
        CarryStep(chip, now, i);
        PostUpdate(chip, chip.out[i], !nets[out].val, 5, i + 7, now, plan);
        ripple := nets[out].val;
        i := i + 1;
      }
      CarryDied(chip, now, i);
      SkipTo(chip, now, plan, i + 7, 11);
      if nets[chip.out[1].value].val && nets[chip.out[2].value].val && nets[chip.out[3].value].val {
        PostUpdate(chip, chip.out[4], !nets[chip.out[0].value].val, 7, 11, now, plan);
      } else {
        Skip(chip, now, plan, 11);
      }
    }

    /** The outputs of `step74AC161` while ~Clear is low */
    method Step74AC161Clear(chip: Chip, ghost now: seq<Net>, ghost plan: seq<seq<Update>>)
      requires At(chip, now, plan, 7) && chip.kind.AC161? && !In(chip, now, 7)
      modifies this, pool
      ensures At(chip, now, plan, 13) && old(pool) <= pool && fresh(pool - old(pool)) && elapsedTime == old(elapsedTime)
    {
      hide Lists;
      if nets[chip.inp[7]].changed {
        for i := 0 to 4
          invariant At(chip, now, plan, i + 7) && old(pool) <= pool && fresh(pool - old(pool)) &&
                    elapsedTime == old(elapsedTime)
        {
          PostUpdate(chip, chip.out[i], false, 6, i + 7, now, plan);
        }
        PostUpdate(chip, chip.out[4], false, 9, 11, now, plan);
        Skip(chip, now, plan, 12);
      } else {
        SkipTo(chip, now, plan, 7, 13);
      }
    }

    /** The clocked outputs of `step74AC161` */
    method Step74AC161Clock(chip: Chip, ghost now: seq<Net>, ghost plan: seq<seq<Update>>)
      requires At(chip, now, plan, 7) && chip.kind.AC161? && In(chip, now, 7) && ReadsConnected(chip, now)
      modifies this, pool
      ensures At(chip, now, plan, 12) && old(pool) <= pool && fresh(pool - old(pool)) && elapsedTime == old(elapsedTime)
    {
      hide Lists;
      if nets[chip.inp[8]].changed && nets[chip.inp[8]].val {
        if !nets[chip.local + 4].val {
          for i := 0 to 4
            invariant At(chip, now, plan, i + 7) && old(pool) <= pool && fresh(pool - old(pool)) &&
                      elapsedTime == old(elapsedTime)
          {
            PostUpdate(chip, chip.out[i], nets[chip.local + i].val, 5, i + 7, now, plan);
          }
          Skip(chip, now, plan, 11);
        } else if nets[chip.local + 5].val && nets[chip.local + 6].val {
          Step74AC161Count(chip, now, plan);
        } else {
          SkipTo(chip, now, plan, 7, 12);
        }
      } else {
        SkipTo(chip, now, plan, 7, 12);
      }
    }

    /** `step74AC161` */
    method Step74AC161(chip: Chip, ghost now: seq<Net>, ghost plan: seq<seq<Update>>)
      requires At(chip, now, plan, 0) && chip.kind.AC161? && ReadsConnected(chip, now)
      modifies this, pool
      ensures At(chip, now, plan, SlotCount(chip.kind)) && old(pool) <= pool && fresh(pool - old(pool)) &&
              elapsedTime == old(elapsedTime)
    {
      hide Lists;
      for i := 0 to 5
        invariant At(chip, now, plan, i) && old(pool) <= pool && fresh(pool - old(pool)) &&
                  elapsedTime == old(elapsedTime)
      {
        if nets[chip.inp[i]].changed {
          PostUpdate(chip, Some(chip.local + i), nets[chip.inp[i]].val, 4, i, now, plan);
        } else {
          Skip(chip, now, plan, i);
        }
      }
      for i := 5 to 7
        invariant At(chip, now, plan, i) && old(pool) <= pool && fresh(pool - old(pool)) &&
                  elapsedTime == old(elapsedTime)
      {
        if nets[chip.inp[i]].changed {
          PostUpdate(chip, Some(chip.local + i), nets[chip.inp[i]].val, 2, i, now, plan);
        } else {
          Skip(chip, now, plan, i);
        }
      }
      if !nets[chip.inp[7]].val {
        Step74AC161Clear(chip, now, plan);
      } else {
        Step74AC161Clock(chip, now, plan);
        Step74AC161Ripple(chip, now, plan);
      }
    }

    /** The ripple output of `step74AC161` when the ripple input has changed */
    method Step74AC161Ripple(chip: Chip, ghost now: seq<Net>, ghost plan: seq<seq<Update>>)
      requires At(chip, now, plan, 12) && chip.kind.AC161? && In(chip, now, 7) && ReadsConnected(chip, now)
      modifies this, pool
      ensures At(chip, now, plan, 13) && old(pool) <= pool && fresh(pool - old(pool)) && elapsedTime == old(elapsedTime)
    {
      hide Lists;
      if nets[chip.inp[6]].changed {
        CarryDown(chip, now);
        if nets[chip.inp[6]].val && nets[chip.out[0].value].val && nets[chip.out[1].value].val
           && nets[chip.out[2].value].val && nets[chip.out[3].value].val {
          PostUpdate(chip, chip.out[4], true, 5, 12, now, plan);
        } else {
          PostUpdate(chip, chip.out[4], false, 5, 12, now, plan);
        }
      } else {
        Skip(chip, now, plan, 12);
      }
    }

    /** `stepChip` */
    method StepChip(chip: Chip, ghost now: seq<Net>)
      requires Shape() && ChipFits(circ, chip) && nets[..] == now && ReadsConnected(chip, now)
      modifies this, pool
      ensures Shape() && old(pool) <= pool && fresh(pool - old(pool)) && elapsedTime == old(elapsedTime)
      ensures sched == DriveFrom(chip, now, old(sched), 0)
    {
      hide Lists;
      ghost var plan := MakePlan(chip, now, sched);
      match chip.kind
      case CLK40M => StepCLK40M(chip, now, plan);
      case HC30 => Step74HC30(chip, now, plan);
      case HC04 => Step74HC04(chip, now, plan);
      case HC21 => Step74HC21(chip, now, plan);
      case AC157 => Step74AC157(chip, now, plan);
      case AC153 => Step74AC153(chip, now, plan);
      case AC161 => Step74AC161(chip, now, plan);
      case HC283 => Step74HC283(chip, now, plan);
      case HC377 => Step74HC377(chip, now, plan);
      case _ => StepQuad(chip, now, plan);
    }

    // ---- The step ----

    method StepChips(ghost now: seq<Net>, ghost plan: seq<seq<Update>>)
      requires Shape() && nets[..] == now && IsRound(circ.chips, now, plan) && sched == plan[0] && NoNullRead(circ, now)
      modifies this, pool
      ensures Shape() && old(pool) <= pool && fresh(pool - old(pool)) && elapsedTime == old(elapsedTime)
      ensures sched == plan[|circ.chips|]
    {
      hide Lists, DriveFrom;
      for i := 0 to |circ.chips|
        invariant Shape() && nets[..] == now && sched == plan[i] && old(pool) <= pool && fresh(pool - old(pool)) &&
                  elapsedTime == old(elapsedTime)
      {
        assert plan[i + 1] == DriveFrom(circ.chips[i], now, plan[i], 0);
        StepChip(circ.chips[i], now);
      }
    }

    method ClearChanged()
      requires circ.netLen <= nets.Length
      modifies nets
      ensures nets[..] == Clear(old(nets[..]), circ.netLen)
    {
      for i := 0 to circ.netLen
        invariant forall j :: 0 <= j < nets.Length ==>
                    nets[j] == if j < i then Net(old(nets[j].val), false) else old(nets[j])
      {
        nets[i] := nets[i].(changed := false);
      }
    }

    /** `stepCircuit` */
    method StepCircuit()
      requires Valid() && NoNullRead(circ, nets[..])
      modifies this, pool, nets
      ensures Valid() && old(pool) <= pool && fresh(pool - old(pool))
      ensures Now() == Step(circ, old(Now()))
      ensures elapsedTime == Tick(old(elapsedTime))
    {
      hide Posted, Lists;
      ghost var now := Now();
      PostedValid(circ, now);
      StepOk(circ, now);
      ghost var next := Step(circ, now);
      ghost var plan := MakeRound(circ, now);
      StepChips(now.nets, plan);
      ClearChanged();
      AgeUpdates();
      assert Now() == next;
      elapsedTime := Tick(elapsedTime);
    }

    /** The interface's `set` command for one net. */
    method Set(n: nat, v: bool)
      requires Valid() && n < circ.netLen
      modifies nets
      ensures Valid() && Now() == SetNet(old(Now()), n, v)
    {
      WriteNet(n, v);
    }

    /** `lenSchedule` */
    method LenSchedule() returns (len: nat)
      requires Shape()
      ensures len == |sched|
    {
      var curr := updateHead;
      len := 0;
      while curr != null
        invariant len <= |upd| && curr == if len < |upd| then upd[len] else null
        decreases |upd| - len
      {
        assert upd[len].next == After(upd, len);
        curr := curr.next;
        len := len + 1;
      }
    }

    /** `min` is the pending update of net `n` that is due first. */
    ghost predicate Next(min: NetUpdate, n: nat)
      requires |upd| == |sched|
      reads this
    {
      exists k :: 0 <= k < |upd| && upd[k] == min && sched[k].target == n &&
        forall i :: 0 <= i < |sched| && sched[i].target == n ==> sched[k].delay <= sched[i].delay
    }

    /** `findNetUpdateFromNet`: the next update of a net, which in an ordered list is the last one found. */
    method FindNetUpdate(n: nat) returns (min: NetUpdate?)
      requires Shape()
      ensures min == null <==> forall i :: 0 <= i < |sched| ==> sched[i].target != n
      ensures min != null ==> Next(min, n)
    {
      var curr := updateHead;
      min := null;
      ghost var i, best := 0, 0;
      while curr != null
        invariant i <= |upd| && curr == if i < |upd| then upd[i] else null
        invariant min == null <==> forall j :: 0 <= j < i ==> sched[j].target != n
        invariant min != null ==> best < i && upd[best] == min && sched[best].target == n
        invariant min != null ==> forall j :: 0 <= j < i && sched[j].target == n ==> sched[best].delay <= sched[j].delay
        decreases |upd| - i
      {
        assert Says(upd[i], sched[i]) && upd[i].next == After(upd, i);
        assert min != null ==> Says(upd[best], sched[best]);
        if curr.target == Some(n) && (min == null || curr.delay < min.delay) {
          min := curr;
          best := i;
        }
        curr := curr.next;
        i := i + 1;
      }
    }

    /** `busToUns` for the nets `idx .. idx + width`, on 32 bits */
    method BusToUns(idx: nat, width: nat) returns (result: nat)
      requires idx + width <= nets.Length
      ensures result == Uns(Vals(nets[..], idx, idx + width)) % UNSIGNED
      ensures width <= 32 ==> result == Uns(Vals(nets[..], idx, idx + width))
    {
      hide Uns, Vals;
      result := 0;
      NarrowBus([]);
      for i := width downto 0
        invariant result == Uns(Vals(nets[..], idx + i, idx + width)) % UNSIGNED
      {
        ShiftIn(Uns(Vals(nets[..], idx + i + 1, idx + width)), nets[idx + i].val);
        ValsNext(nets[..], idx + i, idx + width);
        result := result * 2 % UNSIGNED + BitVal(nets[idx + i].val);
      }
      NarrowBus(Vals(nets[..], idx, idx + width));
    }
  }
}
