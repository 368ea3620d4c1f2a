/** Concrete runs that break what the documentation of Update.Listen promises, or crash. */
module UpdateCounterexamples {
  import opened Dfsr
  import opened UpdateProtocol
  import opened UpdateInvariant
  import opened UpdateTheorems

  /** A listener that joins after the only value holds it, and its channel stays open for ever. */
  lemma LateListenerStaysOpen(b: Backlog) returns (acts: seq<Action>)
    ensures var s := Run(1, acts);
            && s.fault == NoFault && !s.canceled && s.remaining == 0 && |s.listeners| == 1
            && s.listeners[0].ch.sent == [b] && !s.listeners[0].ch.closed
            && InFlight(s.listeners[0].copies) == multiset{}
    ensures forall more :: |Run(1, acts + more).listeners| > 0 && !Run(1, acts + more).listeners[0].ch.closed
  {
    History(1, [], Send(b), 0);
    History(1, [Send(b)], Listen(1), 0);
    acts := [Send(b)] + [Listen(1)];
    var s := Run(1, [Send(b)]);
    assert Run(1, []) == Init(1);
    assert s.values == [b] && s.slice == [] && s.listeners == [] && s.remaining == 0;
    assert Run(1, acts).listeners == [Listener(Channel(1, [b], 0, false), [NewCopy(0)])];
    assert InFlight([]) == multiset{};
    assert !JoinedEarly(1, acts, 0);
    hide Run;
    forall more ensures |Run(1, acts + more).listeners| > 0 && !Run(1, acts + more).listeners[0].ch.closed {
      LateNeverCloses(1, acts, more, 0);
    }
  }

  const NONE: multiset<Backlog> := multiset{}

  function Feed(values: seq<Backlog>, copies: seq<Copy>): Listener {
    Listener(Channel(2, values, 0, false), copies)
  }

  lemma PostTo(x: Listener, v: Backlog, remaining: int)
    requires x.copies != [] && Current(x) == Copy(true, remaining, NONE, 0)
    ensures Post(x, v) == x.(copies := x.copies[..|x.copies| - 1] + [Copy(true, remaining, multiset{v}, 0)])
  {
    assert NONE + multiset{v} == multiset{v};
  }

  lemma FirstValueWaits(a: Backlog)
    ensures var x := Feed([], [Copy(true, 2, NONE, 0)]);
            var y := Feed([], [Copy(true, 2, multiset{a}, 0)]);
            SendStep(State(2, false, [], 2, 2, [0, 1], 2, [x, x], NoFault), a)
            == State(2, false, [a], 1, 1, [0, 1], 2, [y, y], NoFault)
  {
    var x := Feed([], [Copy(true, 2, NONE, 0)]);
    PostTo(x, a, 2);
    assert x.copies[..0] + [Copy(true, 2, multiset{a}, 0)] == [Copy(true, 2, multiset{a}, 0)];
    assert PostAll([x, x], [0, 1], a) == [Post(x, a), Post(x, a)];
  }

  lemma ThirdListenerMoves(a: Backlog)
    ensures var y := Feed([], [Copy(true, 2, multiset{a}, 0)]);
            var z := Feed([], [Copy(true, 2, multiset{a}, 0), Copy(true, 2, NONE, 0)]);
            var n := Feed([a], [Copy(true, 1, NONE, 0)]);
            ListenStep(State(2, false, [a], 1, 1, [0, 1], 2, [y, y], NoFault), 4)
            == State(2, false, [a], 1, 1, [0, 1, 2], 4, [z, z, n], NoFault)
  {
    var y := Feed([], [Copy(true, 2, multiset{a}, 0)]);
    assert Recopy(y).copies == [Copy(true, 2, multiset{a}, 0), Copy(true, 2, NONE, 0)];
    assert RecopyAll([y, y], [0, 1]) == [Recopy(y), Recopy(y)];
  }

  /** Three listeners, two values: the first listener gets both values and is never closed. */
  lemma ThirdListenerCutsOffFirst(a: Backlog, b: Backlog) returns (acts: seq<Action>)
    ensures var s := Run(2, acts);
            && s.fault == NoFault && !s.canceled && s.remaining == 0 && |s.listeners| == 3
            && s.listeners[0] == Feed([a, b], [Copy(true, 1, NONE, 0), Copy(true, 1, NONE, 0)])
            && JoinedEarly(2, acts, 0)
    ensures forall more :: |Run(2, acts + more).listeners| > 0 && !Run(2, acts + more).listeners[0].ch.closed
  {
    acts := ThirdListenerStrands(a);
    acts := FirstListenerFilled(a, b, acts);
    hide Run;
    if Lost(2, acts, 0) == 0 {
      ClosedExactlyWhenComplete(2, acts, 0);
    }
    forall more ensures |Run(2, acts + more).listeners| > 0 && !Run(2, acts + more).listeners[0].ch.closed {
      CutOffNeverCloses(2, acts, more, 0);
    }
  }

  /** Two listeners and a send; a third listener moves the slice with both sends waiting. */
  lemma ThirdListenerStrands(a: Backlog) returns (acts: seq<Action>)
    ensures var z := Feed([], [Copy(true, 2, multiset{a}, 0), Copy(true, 2, NONE, 0)]);
            var n := Feed([a], [Copy(true, 1, NONE, 0)]);
            Run(2, acts) == State(2, false, [a], 1, 1, [0, 1, 2], 4, [z, z, n], NoFault)
    ensures JoinedEarly(2, acts, 0)
  {
    acts := TwoListeners();
    History(2, acts, Send(a), 0);
    acts := acts + [Send(a)];
    FirstValueWaits(a);
    History(2, acts, Listen(4), 0);
    acts := acts + [Listen(4)];
    ThirdListenerMoves(a);
  }

  /** If the update is then canceled, a waiting send meets a closed channel. */
  lemma CanceledUpdateCrashes(a: Backlog) returns (acts: seq<Action>)
    ensures Run(2, acts).fault == SendOnClosed
  {
    var before := ThirdListenerStrands(a);
    var s := Run(2, before);
    assert Stranded(s.listeners[0]) == multiset{a} by {
      var first := s.listeners[0].copies[..1];
      assert first[..0] == [] && InFlight(first) == InFlight([]) + multiset{a};
    }
    assert Exposed(s);
    var more := ExposureCrashes(2, before);
    ExecSplit(Init(2), before, more);
    acts := before + more;
  }

  lemma TwoListeners() returns (acts: seq<Action>)
    ensures var x := Feed([], [Copy(true, 2, NONE, 0)]);
            Run(2, acts) == State(2, false, [], 2, 2, [0, 1], 2, [x, x], NoFault)
    ensures JoinedEarly(2, acts, 0)
  {
    acts := [] + [Listen(0)];
    History(2, [], Listen(0), 0);
    assert Run(2, acts) == State(2, false, [], 2, 2, [0], 2, [Feed([], [Copy(true, 2, NONE, 0)])], NoFault);
    History(2, acts, Listen(0), 0);
    acts := acts + [Listen(0)];
  }

  lemma FirstListenerFilled(a: Backlog, b: Backlog, before: seq<Action>) returns (acts: seq<Action>)
    requires var z := Feed([], [Copy(true, 2, multiset{a}, 0), Copy(true, 2, NONE, 0)]);
             var n := Feed([a], [Copy(true, 1, NONE, 0)]);
             Run(2, before) == State(2, false, [a], 1, 1, [0, 1, 2], 4, [z, z, n], NoFault)
    requires JoinedEarly(2, before, 0)
    ensures var s := Run(2, acts);
            && s.fault == NoFault && !s.canceled && s.remaining == 0 && |s.listeners| == 3
            && s.listeners[0] == Feed([a, b], [Copy(true, 1, NONE, 0), Copy(true, 1, NONE, 0)])
            && JoinedEarly(2, acts, 0)
  {
    var z := Feed([], [Copy(true, 2, multiset{a}, 0), Copy(true, 2, NONE, 0)]);
    var z1 := Feed([a], [Copy(true, 1, NONE, 0), Copy(true, 2, NONE, 0)]);
    assert Deliver(z, 0, a) == (z1, NoFault) by {
      assert multiset{a} - multiset{a} == NONE && [] + [a] == [a];
      assert z.copies[0 := Copy(true, 1, NONE, 0)] == z1.copies;
    }
    History(2, before, RunSend(0, 0, a), 0);
    acts := before + [RunSend(0, 0, a)];
    var s1 := Run(2, acts);
    assert s1.listeners[0] == z1 && s1.slice == [0, 1, 2] && s1.fault == NoFault;
    History(2, acts, Send(b), 0);
    acts := acts + [Send(b)];
    PostTo(z1, b, 2);
    var z2 := Feed([a], [Copy(true, 1, NONE, 0), Copy(true, 2, multiset{b}, 0)]);
    assert Post(z1, b).copies == z2.copies;
    var s2 := Run(2, acts);
    assert s2.listeners[0] == z2;
    var z3 := Feed([a, b], [Copy(true, 1, NONE, 0), Copy(true, 1, NONE, 0)]);
    assert Deliver(z2, 1, b) == (z3, NoFault) by {
      assert multiset{b} - multiset{b} == NONE && [a] + [b] == [a, b];
      assert z2.copies[1 := Copy(true, 1, NONE, 0)] == z3.copies;
    }
    History(2, acts, RunSend(0, 1, b), 0);
    acts := acts + [RunSend(0, 1, b)];
  }
}
