/** The pending-update list of the simulator as a value: what cancelling, posting,
    ageing and firing do to it, and the waveform it stands for. */
module Schedule {

  datatype Net = Net(val: bool, changed: bool)

  /** A pending assignment of `val` to net `target`, `delay` steps from now. */
  datatype Update = Update(target: nat, val: bool, delay: int)

  /** The list without the updates of net `n` that are due at `d` or later. */
  function Cancel(s: seq<Update>, n: nat, d: int): seq<Update> {
    if s == [] then []
    else if s[0].target == n && s[0].delay >= d then Cancel(s[1..], n, d)
    else [s[0]] + Cancel(s[1..], n, d)
  }

  function Post(s: seq<Update>, n: nat, v: bool, d: int): seq<Update> {
    [Update(n, v, d)] + Cancel(s, n, d)
  }

  /** One step closer; updates that become due leave the list. */
  function Age(s: seq<Update>): seq<Update> {
    if s == [] then []
    else if s[0].delay - 1 <= 0 then Age(s[1..])
    else [s[0].(delay := s[0].delay - 1)] + Age(s[1..])
  }

  predicate Targets(s: seq<Update>, m: nat) {
    forall i :: 0 <= i < |s| ==> s[i].target < m
  }

  function Write(nets: seq<Net>, n: nat, v: bool): (r: seq<Net>)
    requires n < |nets|
    ensures |r| == |nets|
  {
    nets[n := Net(v, nets[n].changed || nets[n].val != v)]
  }

  /** The nets after the updates that become due in this step, in list order. */
  function Fire(nets: seq<Net>, s: seq<Update>): (r: seq<Net>)
    requires Targets(s, |nets|)
    ensures |r| == |nets|
    decreases |s|
  {
    if s == [] then nets
    else if s[0].delay - 1 <= 0 then Fire(Write(nets, s[0].target, s[0].val), s[1..])
    else Fire(nets, s[1..])
  }

  /** Every pending update still lies in the future. */
  predicate Positive(s: seq<Update>) {
    forall i :: 0 <= i < |s| ==> s[i].delay >= 1
  }

  /** The delays of one net strictly decrease from the head of the list. */
  predicate Ordered(s: seq<Update>) {
    forall i, j :: 0 <= i < j < |s| && s[i].target == s[j].target ==> s[i].delay > s[j].delay
  }

  predicate Valid(s: seq<Update>, m: nat) {
    Targets(s, m) && Positive(s) && Ordered(s)
  }

  /** No pending update of net `n` is due later than `d`. */
  predicate Within(s: seq<Update>, n: nat, d: int) {
    forall i :: 0 <= i < |s| && s[i].target == n ==> s[i].delay <= d
  }

  /** The waveform of net `n`: its value `t` steps ahead if nothing more is posted. */
  function Future(s: seq<Update>, n: nat, cur: bool, t: int): bool {
    if s == [] then cur
    else if s[0].target == n && s[0].delay <= t then s[0].val
    else Future(s[1..], n, cur, t)
  }

  /** The value net `n` ends up with if nothing more is posted. */
  function Final(s: seq<Update>, n: nat, cur: bool): bool {
    if s == [] then cur
    else if s[0].target == n then s[0].val
    else Final(s[1..], n, cur)
  }

  // ---- Posting truncates the waveform at `d` and appends the new value ----

  lemma {:induction false} CancelMembers(s: seq<Update>, n: nat, d: int)
    ensures forall u :: u in Cancel(s, n, d) <==> u in s && !(u.target == n && u.delay >= d)
  {
    if s != [] {
      CancelMembers(s[1..], n, d);
      assert s == [s[0]] + s[1..];
    }
  }

  lemma {:induction false} CancelOrdered(s: seq<Update>, n: nat, d: int)
    requires Ordered(s)
    ensures Ordered(Cancel(s, n, d))
  {
    if s != [] {
      var r := s[1..];
      CancelOrdered(r, n, d);
      CancelMembers(r, n, d);
      var c := Cancel(s, n, d);
      if !(s[0].target == n && s[0].delay >= d) {
        forall j | 1 <= j < |c| && c[j].target == c[0].target
          ensures c[0].delay > c[j].delay
        {
          assert c[j] == Cancel(r, n, d)[j - 1];
          assert c[j] in r;
          var k :| 0 <= k < |r| && r[k] == c[j];
          assert s[k + 1] == c[j];
        }
      }
    }
  }

  lemma {:induction false} CancelFuture(s: seq<Update>, n: nat, d: int, m: nat, cur: bool, t: int)
    requires m != n || t < d
    ensures Future(Cancel(s, n, d), m, cur, t) == Future(s, m, cur, t)
  {
    if s != [] {
      CancelFuture(s[1..], n, d, m, cur, t);
    }
  }

  lemma {:induction false} CancelFinal(s: seq<Update>, n: nat, d: int, m: nat, cur: bool)
    requires m != n
    ensures Final(Cancel(s, n, d), m, cur) == Final(s, m, cur)
  {
    if s != [] {
      CancelFinal(s[1..], n, d, m, cur);
    }
  }

  /** `addNetUpdate` as a waveform operation, for every net and every time. */
  lemma PostFuture(s: seq<Update>, n: nat, v: bool, d: int, m: nat, cur: bool, t: int)
    ensures Future(Post(s, n, v, d), m, cur, t) == if m == n && t >= d then v else Future(s, m, cur, t)
  {
    if !(m == n && t >= d) {
      CancelFuture(s, n, d, m, cur, t);
    }
  }

  lemma PostFinal(s: seq<Update>, n: nat, v: bool, d: int, m: nat, cur: bool)
    ensures Final(Post(s, n, v, d), m, cur) == if m == n then v else Final(s, m, cur)
  {
    if m != n {
      CancelFinal(s, n, d, m, cur);
    }
  }

  lemma PostValid(s: seq<Update>, n: nat, v: bool, d: int, m: nat)
    requires Valid(s, m) && n < m && d >= 1
    ensures Valid(Post(s, n, v, d), m)
  {
    CancelMembers(s, n, d);
    CancelOrdered(s, n, d);
    var c := Cancel(s, n, d);
    forall i | 0 <= i < |c|
      ensures c[i].target < m && c[i].delay >= 1 && (c[i].target == n ==> d > c[i].delay)
    {
      assert c[i] in s;
    }
  }

  // ---- A step shifts the waveform by one ----

  function Older(u: Update): Update {
    Update(u.target, u.val, u.delay + 1)
  }

  lemma {:induction false} AgeMembers(s: seq<Update>)
    ensures forall u :: u in Age(s) ==> u.delay >= 1 && Older(u) in s
  {
    if s != [] {
      AgeMembers(s[1..]);
      assert s == [s[0]] + s[1..];
    }
  }

  lemma {:induction false} AgeOrdered(s: seq<Update>)
    requires Ordered(s)
    ensures Ordered(Age(s))
  {
    if s != [] {
      var r := s[1..];
      AgeOrdered(r);
      AgeMembers(r);
      var a, ar := Age(s), Age(r);
      if s[0].delay > 1 {
        assert a == [s[0].(delay := s[0].delay - 1)] + ar;
        forall j | 0 <= j < |ar| && ar[j].target == s[0].target
          ensures s[0].delay - 1 > ar[j].delay
        {
          assert ar[j] in ar;
          var k :| 0 <= k < |r| && r[k] == Older(ar[j]);
          assert s[k + 1] == r[k];
        }
      }
    }
  }

  lemma AgeValid(s: seq<Update>, m: nat)
    requires Valid(s, m)
    ensures Valid(Age(s), m)
  {
    AgeMembers(s);
    AgeOrdered(s);
    var a := Age(s);
    forall i | 0 <= i < |a|
      ensures a[i].target < m && a[i].delay >= 1
    {
      assert a[i] in a;
      var k :| 0 <= k < |s| && s[k] == Older(a[i]);
    }
  }

  lemma AgeWithin(s: seq<Update>, n: nat, d: int)
    requires Within(s, n, d)
    ensures Within(Age(s), n, d - 1)
  {
    AgeMembers(s);
    var a := Age(s);
    forall i | 0 <= i < |a| && a[i].target == n
      ensures a[i].delay <= d - 1
    {
      assert a[i] in a;
      var k :| 0 <= k < |s| && s[k] == Older(a[i]);
    }
  }

  lemma {:induction false} FutureUntouched(s: seq<Update>, n: nat, cur: bool, t: int)
    requires forall i :: 0 <= i < |s| && s[i].target == n ==> s[i].delay > t
    ensures Future(s, n, cur, t) == cur
  {
    if s != [] {
      FutureUntouched(s[1..], n, cur, t);
    }
  }

  /** At most one update per net is due in a step, so firing in list order writes exactly the
      waveform's next value, and marks the net iff that differs from its old value. */
  lemma {:induction false} FireValue(nets: seq<Net>, s: seq<Update>, n: nat)
    requires Valid(s, |nets|) && n < |nets|
    ensures Fire(nets, s)[n].val == Future(s, n, nets[n].val, 1)
    ensures Fire(nets, s)[n].changed <==> nets[n].changed || Future(s, n, nets[n].val, 1) != nets[n].val
    decreases |s|
  {
    if s != [] {
      var r := s[1..];
      if s[0].delay - 1 <= 0 {
        var w := Write(nets, s[0].target, s[0].val);
        FireValue(w, r, n);
        if s[0].target == n {
          FutureUntouched(r, n, w[n].val, 1);
        }
      } else {
        FireValue(nets, r, n);
      }
    }
  }

  /** Ageing shifts the waveform, once the nets have been written. */
  lemma {:induction false} AgeFuture(s: seq<Update>, n: nat, cur: bool, t: int)
    requires Positive(s) && Ordered(s) && t >= 0
    ensures Future(Age(s), n, Future(s, n, cur, 1), t) == Future(s, n, cur, t + 1)
  {
    if s != [] {
      var r := s[1..];
      if s[0].target == n && s[0].delay == 1 {
        AgeMembers(r);
        assert forall u :: u in r ==> u.target != n by {
          forall u | u in r
            ensures u.target != n
          {
            var k :| 0 <= k < |r| && r[k] == u;
            assert s[k + 1] == u;
          }
        }
        assert forall u :: u in Age(r) ==> Older(u) in r;
        FutureUntouched(Age(r), n, s[0].val, t);
      } else {
        AgeFuture(r, n, cur, t);
      }
    }
  }

  lemma {:induction false} AgeFinal(s: seq<Update>, n: nat, cur: bool)
    requires Positive(s) && Ordered(s)
    ensures Final(Age(s), n, Future(s, n, cur, 1)) == Final(s, n, cur)
  {
    FutureFinal(s, n, cur, Horizon(s) + 1);
    AgeFuture(s, n, cur, Horizon(s));
    AgeWithin(s, n, Horizon(s) + 1);
    FutureFinal(Age(s), n, Future(s, n, cur, 1), Horizon(s));
  }

  /** A time by which everything pending has happened. */
  function Horizon(s: seq<Update>): (h: nat)
    ensures forall i :: 0 <= i < |s| ==> s[i].delay <= h
  {
    if s == [] then 0
    else
      var h := Horizon(s[1..]);
      var r := if s[0].delay > h then s[0].delay else h;
      assert forall i :: 1 <= i < |s| ==> s[i] == s[1..][i - 1];
      r
  }

  /** Far enough ahead the waveform has its final value. */
  lemma {:induction false} FutureFinal(s: seq<Update>, n: nat, cur: bool, t: int)
    requires Within(s, n, t)
    ensures Future(s, n, cur, t) == Final(s, n, cur)
  {
    if s != [] {
      FutureFinal(s[1..], n, cur, t);
    }
  }
}
