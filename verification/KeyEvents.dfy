/** What a computer at the other end makes of the keyboard's codes: which keys were pressed and released. */
module KeyEvents {
  import opened Wrappers
  import opened Keyboard

  /** A key by its code and its set of codes, pressed or released. */
  datatype Press = Press(code: bv8, extended: bool, released: bool)

  /** Reads scan codes: 0xE0 marks the next code as one of the extended set, 0xF0 as a release. */
  function Decode(codes: seq<bv8>, extended: bool, released: bool): Option<seq<Press>>
    decreases |codes|
  {
    if codes == [] then if extended || released then None else Some([])
    else if codes[0] == 0xE0 then Decode(codes[1..], true, released)
    else if codes[0] == 0xF0 then Decode(codes[1..], extended, true)
    else match Decode(codes[1..], false, false)
         case None => None
         case Some(more) => Some([Press(codes[0], extended, released)] + more)
  }

  /** The first entry of the key in the table. */
  predicate FirstEntry(table: seq<KeyEntry>, key: int, i: nat) {
    i < |table| && table[i].key == key && forall j :: 0 <= j < i ==> table[j].key != key
  }

  /** What an event means to the computer: the key's code and set, and whether it went down or up; nothing for a key
      that is not in the table, and for events that are not about a key. */
  ghost function Meaning(table: seq<KeyEntry>, e: Event): seq<Press> {
    if e.OtherEvent? || forall i: nat :: !FirstEntry(table, e.key, i) then []
    else
      var i: nat :| FirstEntry(table, e.key, i);
      [Press(table[i].code, table[i].extended, e.KeyUp?)]
  }

  ghost function Meanings(table: seq<KeyEntry>, events: seq<Event>): seq<Press> {
    if events == [] then [] else Meaning(table, events[0]) + Meanings(table, events[1..])
  }

  /** No key has a code that marks something else. */
  predicate PlainCodes(table: seq<KeyEntry>) {
    GoodTable(table) && forall i :: 0 <= i < |table| ==> table[i].code != 0xE0 && table[i].code != 0xF0
  }

  function Arrivals(inputs: seq<Input>): seq<Event> {
    if inputs == [] then [] else inputs[0].arrivals + Arrivals(inputs[1..])
  }

  // ---- The codes of one event ----

  lemma FirstUnique(table: seq<KeyEntry>, key: int, i: nat, j: nat)
    requires FirstEntry(table, key, i) && FirstEntry(table, key, j)
    ensures i == j
  {
  }

  lemma {:induction false} SearchFirst(table: seq<KeyEntry>, key: int)
    ensures SearchKeyTable(table, key).None? ==> forall i: nat :: !FirstEntry(table, key, i)
    ensures SearchKeyTable(table, key).Some? ==>
              exists i: nat :: FirstEntry(table, key, i) && SearchKeyTable(table, key).value == table[i]
  {
    if table != [] {
      if table[0].key == key {
        assert FirstEntry(table, key, 0);
      } else {
        SearchFirst(table[1..], key);
        if SearchKeyTable(table, key).Some? {
          var i: nat :| FirstEntry(table[1..], key, i) && SearchKeyTable(table[1..], key).value == table[1..][i];
          assert FirstEntry(table, key, i + 1);
        } else {
          forall i: nat
            ensures !FirstEntry(table, key, i)
          {
            assert i > 0 ==> !FirstEntry(table[1..], key, i - 1);
          }
        }
      }
    }
  }

  /** The codes of an event say just what it means; an event without codes means nothing. */
  lemma CodesMean(table: seq<KeyEntry>, e: Event)
    requires PlainCodes(table)
    ensures match Codes(table, e)
            case None => Meaning(table, e) == []
            case Some(codes) => Decode(codes, false, false) == Some(Meaning(table, e))
  {
    hide Decode, SearchKeyTable;
    DecodeNothing();
    if !e.OtherEvent? {
      SearchFirst(table, e.key);
      if SearchKeyTable(table, e.key).Some? {
        var i: nat :| FirstEntry(table, e.key, i) && SearchKeyTable(table, e.key).value == table[i];
        var j: nat :| FirstEntry(table, e.key, j) &&
                      Meaning(table, e) == [Press(table[j].code, table[j].extended, e.KeyUp?)];
        FirstUnique(table, e.key, i, j);
        DecodeOne(table[i].code, table[i].extended, e.KeyUp?);
        assert Codes(table, e).value == Marks(table[i].extended, e.KeyUp?) + [table[i].code];
      }
    }
  }

  lemma DecodeNothing()
    ensures Decode([], false, false) == Some([])
  {
  }

  function Marks(extended: bool, released: bool): seq<bv8> {
    (if extended then [0xE0] else []) + if released then [0xF0] else []
  }

  /** One code, with its marks in front. */
  lemma DecodeOne(code: bv8, extended: bool, released: bool)
    requires code != 0xE0 && code != 0xF0
    ensures Decode(Marks(extended, released) + [code], false, false) == Some([Press(code, extended, released)])
  {
    DecodeNothing();
    var last := [code];
    assert last[1..] == [] && Decode(last[1..], false, false) == Some([]);
    var press := [Press(code, extended, released)];
    assert press + [] == press;
    var marked := (if released then [0xF0] else []) + last;
    assert Decode(marked, extended, false) == Decode(last, extended, released) by {
      assert released ==> marked[0] == 0xF0 && marked[1..] == last;
      assert !released ==> marked == last;
    }
    var all := (if extended then [0xE0] else []) + marked;
    assert Decode(all, false, false) == Decode(marked, extended, false) by {
      assert extended ==> all[0] == 0xE0 && all[1..] == marked;
      assert !extended ==> all == marked;
    }
    assert Marks(extended, released) + [code] == all;
  }

  /** Whole presses are read one after the other. */
  lemma {:induction false} DecodeConcat(a: seq<bv8>, b: seq<bv8>, extended: bool, released: bool)
    requires Decode(a, extended, released).Some? && Decode(b, false, false).Some?
    ensures Decode(a + b, extended, released) ==
            Some(Decode(a, extended, released).value + Decode(b, false, false).value)
    decreases |a|
  {
    if a == [] {
      assert a + b == b;
      assert [] + Decode(b, false, false).value == Decode(b, false, false).value;
    } else {
      assert (a + b)[0] == a[0] && (a + b)[1..] == a[1..] + b;
      if a[0] == 0xE0 {
        DecodeConcat(a[1..], b, true, released);
      } else if a[0] == 0xF0 {
        DecodeConcat(a[1..], b, extended, true);
      } else {
        DecodeConcat(a[1..], b, false, false);
        var press, more := [Press(a[0], extended, released)], Decode(a[1..], false, false).value;
        var rest := Decode(b, false, false).value;
        assert press + (more + rest) == (press + more) + rest;
      }
    }
  }

  lemma {:induction false} MeaningsConcat(table: seq<KeyEntry>, a: seq<Event>, b: seq<Event>)
    ensures Meanings(table, a + b) == Meanings(table, a) + Meanings(table, b)
  {
    hide Meaning;
    if a == [] {
      assert a + b == b;
    } else {
      MeaningsConcat(table, a[1..], b);
      assert (a + b)[1..] == a[1..] + b;
    }
  }

  // ---- Whole runs ----

  /** The events of a queue that are gone when `left` is left of it. */
  function Gone(all: seq<Event>, left: seq<Event>): seq<Event>
    requires |left| <= |all|
  {
    all[..|all| - |left|]
  }

  /** A step takes at most the first event of the queue, and the codes it takes mean that event. */
  lemma StepTakes(table: seq<KeyEntry>, s: System, time: nat)
    requires PlainCodes(table) && Sane(s.keyboard)
    ensures var left := Step(table, s, time).queue;
            |left| <= |s.queue| && s.queue == Gone(s.queue, left) + left &&
            Decode(Taken(table, s, time), false, false) == Some(Meanings(table, Gone(s.queue, left)))
  {
    hide Decode, Codes, Meaning, Sane, StepData, StepClockDown, StepClockUp;
    SaneIndex(s.keyboard);
    DecodeNothing();
    var left := Step(table, s, time).queue;
    if left == s.queue {
      assert Gone(s.queue, left) == [];
    } else {
      CodesMean(table, s.queue[0]);
      assert Meaning(table, s.queue[0]) + [] == Meaning(table, s.queue[0]);
      assert Gone(s.queue, left) == [s.queue[0]] && [s.queue[0]][1..] == [];
    }
  }

  lemma GoneConcat(all: seq<Event>, left: seq<Event>, arrivals: seq<Event>, last: seq<Event>)
    requires |left| <= |all| && all == Gone(all, left) + left && |last| <= |left + arrivals|
    requires left + arrivals == Gone(left + arrivals, last) + last
    ensures |last| <= |all + arrivals| && all + arrivals == Gone(all + arrivals, last) + last
    ensures Gone(all + arrivals, last) == Gone(all, left) + Gone(left + arrivals, last)
  {
    assert all + arrivals == Gone(all, left) + (left + arrivals);
  }

  /** What is accepted in a run means, in order, the events that have left the queue. */
  lemma {:induction false} AcceptedMean(table: seq<KeyEntry>, s: System, inputs: seq<Input>)
    requires PlainCodes(table) && GoodTable(table) && Sending(s.keyboard)
    ensures var all, left := s.queue + Arrivals(inputs), Run(table, s, inputs).queue;
            |left| <= |all| && all == Gone(all, left) + left &&
            Decode(Accepted(table, s, inputs), false, false) == Some(Meanings(table, Gone(all, left)))
    decreases |inputs|
  {
    hide Decode, Meanings, Taken, Sending, Sane, Step, GoodTable, PlainCodes, Gone;
    if inputs == [] {
      DecodeNothing();
      NothingGone(table, s.queue);
      assert s.queue + Arrivals(inputs) == s.queue;
    } else {
      SendingIsSane(s.keyboard);
      var q := s.(queue := s.queue + inputs[0].arrivals);
      StepSends(table, q, inputs[0].time);
      StepTakes(table, q, inputs[0].time);
      var n := After(table, s, inputs[0]);
      AcceptedMean(table, n, inputs[1..]);
      var last, later := Run(table, n, inputs[1..]).queue, Arrivals(inputs[1..]);
      GoneConcat(q.queue, n.queue, later, last);
      assert s.queue + Arrivals(inputs) == q.queue + later;
      DecodeConcat(Taken(table, q, inputs[0].time), Accepted(table, n, inputs[1..]), false, false);
      MeaningsConcat(table, Gone(q.queue, n.queue), Gone(n.queue + later, last));
    }
  }

  lemma NothingGone(table: seq<KeyEntry>, all: seq<Event>)
    ensures Gone(all, all) == [] && Meanings(table, Gone(all, all)) == []
  {
  }

  /** From an idle keyboard back to an idle keyboard: the events that were waiting or arrived are, in order, those
      that the receiver has read from the wire as presses and releases, and those still waiting. */
  lemma ReceiverGetsKeys(table: seq<KeyEntry>, s: System, inputs: seq<Input>)
    requires PlainCodes(table) && Sending(s.keyboard) && s.keyboard.phase == TxPretransmit
    requires Run(table, s, inputs).keyboard.phase == TxPretransmit
    ensures var all, left := s.queue + Arrivals(inputs), Run(table, s, inputs).queue;
            |left| <= |all| && all == Gone(all, left) + left &&
            var codes := Receive(Wire(table, s, inputs));
            codes.Some? && Decode(codes.value, false, false) == Some(Meanings(table, Gone(all, left)))
  {
    hide Decode, Meanings, Sending, Sane, Step, Gone, Receive, Wire, Run, Accepted;
    AcceptedMean(table, s, inputs);
    ReceiverGetsCodes(table, s, inputs);
  }
}
