/** When an update of monitor/update.go can go on to send on a closed channel, whatever follows. */
module UpdateCrash {
  import opened Dfsr
  import opened UpdateProtocol
  import opened UpdateInvariant
  import opened UpdateTheorems

  /** A send waits on the copy of listener `l` that the slice holds, where a reallocation would strand it. */
  predicate Waits(s: State, l: nat) {
    l < |s.listeners| && s.listeners[l].copies != [] && Current(s.listeners[l]).inbox != multiset{}
  }

  /** A send is stranded while the update is canceled or can be; or it can still be stranded, because a
      send that leaves the update open is still to come or waits on the slice. */
  ghost predicate AtRisk(s: State) {
    || Exposed(s)
    || (!s.canceled && s.remaining >= 2)
    || (!s.canceled && s.remaining == 1 && exists l :: l in s.slice && Waits(s, l))
  }

  // ---------------------------------------------------------------- without the risk nothing crashes

  lemma StrandedByRecopy(x: Listener)
    requires x.copies != [] && Stranded(x) == multiset{} && Current(x).inbox == multiset{}
    ensures Stranded(Recopy(x)) == multiset{} && Current(Recopy(x)).inbox == multiset{}
  {
    assert Recopy(x).copies[..|x.copies|] == x.copies;
  }

  /** A listener that joins strands nothing if nothing waits on the slice. */
  lemma ListenStrandsNothing(s: State, grow: nat, l: nat)
    requires s.fault == NoFault && Shape(s) && l < |ListenStep(s, grow).listeners|
    requires l < |s.listeners| ==> Stranded(s.listeners[l]) == multiset{}
    requires !s.canceled && l in s.slice ==> !Waits(s, l)
    ensures Stranded(ListenStep(s, grow).listeners[l]) == multiset{}
    ensures !s.canceled && s.size > 0 && (l in s.slice || l == |s.listeners|) ==> !Waits(ListenStep(s, grow), l)
  {
    if l < |s.listeners| {
      Listened(s, grow, l);
      if Reallocates(s) && l in s.slice {
        StrandedByRecopy(s.listeners[l]);
      }
    } else {
      var x := ListenStep(s, grow).listeners[l];
      assert |x.copies| <= 1;
      assert x.copies != [] ==> x.copies[..0] == [];
    }
  }

  lemma ListenKeepsSafe(s: State, grow: nat)
    requires s.fault == NoFault && Shape(s) && !AtRisk(s)
    ensures !AtRisk(ListenStep(s, grow))
  {
    var t := ListenStep(s, grow);
    if s.canceled || s.remaining == 1 {
      forall l: nat | l < |t.listeners|
        ensures Stranded(t.listeners[l]) == multiset{}
        ensures !s.canceled && l in t.slice ==> !Waits(t, l)
      {
        ListenStrandsNothing(s, grow, l);
      }
    }
  }

  /** No other step gives a listener more to wait for, unless it is the last send. */
  lemma WaitsShrinks(s: State, a: Action, l: nat)
    requires s.fault == NoFault && !a.Listen? && !a.Send? && Waits(Step(s, a), l)
    ensures Waits(s, l)
  {
    OnlyListenJoins(s, a);
    match a
    case Cancel => CancelWaits(s, l);
    case RunSend(m, g, v) =>
      if m == l && CanRunSend(s, l, g, v) {
        DeliverWaits(s.listeners[l], g, v);
      }
    case RunCancel(m, g) =>
      if m == l && CanRunCancel(s, l, g) {
        DeliverCancelWaits(s.listeners[l], g);
      }
    case Receive(m) => assert Step(s, a).listeners[l].copies == s.listeners[l].copies;
  }

  lemma CancelWaits(s: State, l: nat)
    requires Waits(CancelStep(s), l)
    ensures Waits(s, l)
  {
    assert CancelStep(s).listeners[l] in [s.listeners[l], PostCancel(s.listeners[l])];
  }

  lemma DeliverWaits(x: Listener, g: nat, v: Backlog)
    requires g < |x.copies| && v in x.copies[g].inbox
    ensures var y := Deliver(x, g, v).0; |y.copies| == |x.copies| && Current(y).inbox <= Current(x).inbox
  {
  }

  lemma DeliverCancelWaits(x: Listener, g: nat)
    requires g < |x.copies| && x.copies[g].cancels > 0
    ensures var y := DeliverCancel(x, g).0; |y.copies| == |x.copies| && Current(y).inbox == Current(x).inbox
  {
  }

  lemma SafeStep(s: State, a: Action)
    requires s.fault == NoFault && Shape(s) && !AtRisk(s) && Step(s, a).fault == NoFault
    ensures !AtRisk(Step(s, a))
  {
    if a.Listen? {
      ListenKeepsSafe(s, a.grow);
    } else {
      var t := Step(s, a);
      UnexposedStep(s, a);
      if !t.canceled && t.remaining == 1 {
        forall l | l in t.slice ensures !Waits(t, l) {
          if Waits(t, l) {
            WaitsShrinks(s, a, l);
          }
        }
      }
    }
  }

  lemma {:induction false} SafeRun(size: nat, acts: seq<Action>, more: seq<Action>)
    requires Run(size, acts).fault == NoFault && !AtRisk(Run(size, acts))
    ensures Run(size, acts + more).fault != SendOnClosed
    ensures Run(size, acts + more).fault == NoFault ==> !AtRisk(Run(size, acts + more))
  {
    if more == [] {
      assert acts + more == acts;
    } else {
      hide AtRisk;
      var before, a := acts + more[..|more| - 1], more[|more| - 1];
      SafeRun(size, acts, more[..|more| - 1]);
      assert acts + more == before + [a];
      History(size, before, a, 0);
      if Run(size, before).fault == NoFault {
        SafeNext(size, before, a);
      }
    }
  }

  lemma SafeNext(size: nat, acts: seq<Action>, a: Action)
    requires Run(size, acts).fault == NoFault && !AtRisk(Run(size, acts))
    ensures var t := Step(Run(size, acts), a);
            t.fault != SendOnClosed && (t.fault == NoFault ==> !AtRisk(t))
  {
    NextFault(size, acts, a);
    InvHolds(size, acts);
    if Step(Run(size, acts), a).fault == NoFault {
      SafeStep(Run(size, acts), a);
    }
  }

  // ---------------------------------------------------------------- with it, something can

  /** `more`, after `acts`, grows the slice as the runtime does: `growth` maps its length to the new capacity. */
  ghost predicate Grows(growth: nat -> nat, size: nat, acts: seq<Action>, more: seq<Action>) {
    forall i :: 0 <= i < |more| && more[i].Listen? ==> more[i].grow == growth(|Run(size, acts + more[..i]).slice|)
  }

  lemma GrowsOne(growth: nat -> nat, size: nat, acts: seq<Action>)
    ensures Grows(growth, size, acts, [Listen(growth(|Run(size, acts).slice|))])
  {
    var a := Listen(growth(|Run(size, acts).slice|));
    assert [a][..0] == [] && acts + [] == acts;
  }

  lemma GrowsOn(growth: nat -> nat, size: nat, acts: seq<Action>, first: seq<Action>, rest: seq<Action>)
    requires Grows(growth, size, acts, first) && Grows(growth, size, acts + first, rest)
    ensures Grows(growth, size, acts, first + rest)
    ensures acts + (first + rest) == acts + first + rest
  {
    hide Run;
    var more := first + rest;
    forall i | 0 <= i < |more| && more[i].Listen?
      ensures more[i].grow == growth(|Run(size, acts + more[..i]).slice|)
    {
      if i < |first| {
        assert more[..i] == first[..i] && more[i] == first[i];
      } else {
        assert acts + more[..i] == acts + first + rest[..i - |first|] && more[i] == rest[i - |first|];
      }
    }
  }

  /** What Listen does to an open update. */
  lemma JoinOpen(size: nat, acts: seq<Action>, grow: nat, l: nat)
    requires Run(size, acts).fault == NoFault && !Run(size, acts).canceled && Run(size, acts).remaining > 0
    ensures var s, t := Run(size, acts), Run(size, acts + [Listen(grow)]);
            && t.fault == NoFault && !t.canceled && t.remaining == s.remaining
            && t.slice == s.slice + [|s.listeners|] && |t.listeners| == |s.listeners| + 1
            && t.listeners[|s.listeners|].copies == [NewCopy(s.remaining)]
            && (l < |s.listeners| && l in s.slice ==>
                  t.listeners[l] == if |s.slice| >= s.capacity then Recopy(s.listeners[l]) else s.listeners[l])
            && (|s.slice| < s.capacity ==> t.capacity == s.capacity)
  {
    InvHolds(size, acts);
    History(size, acts, Listen(grow), 0);
  }

  /** Enough Listen calls make the slice move, and strand what waits on it. */
  lemma {:induction false} JoinUntilStranded(growth: nat -> nat, size: nat, acts: seq<Action>, l: nat)
    returns (more: seq<Action>)
    requires Run(size, acts).fault == NoFault && !Run(size, acts).canceled && Run(size, acts).remaining > 0
    requires l in Run(size, acts).slice && Waits(Run(size, acts), l)
    ensures Grows(growth, size, acts, more)
    ensures Run(size, acts + more).fault == NoFault && Exposed(Run(size, acts + more))
    decreases Run(size, acts).capacity - |Run(size, acts).slice|
  {
    hide Run, Grows;
    var s := Run(size, acts);
    var grow := growth(|s.slice|);
    JoinOpen(size, acts, grow, l);
    GrowsOne(growth, size, acts);
    more := [Listen(grow)];
    if |s.slice| < s.capacity {
      var rest := JoinUntilStranded(growth, size, acts + more, l);
      GrowsOn(growth, size, acts, more, rest);
      more := more + rest;
    } else {
      RecopyStrands(s.listeners[l]);
    }
  }

  lemma RecopyStrands(x: Listener)
    requires x.copies != [] && Current(x).inbox != multiset{}
    ensures Stranded(Recopy(x)) != multiset{}
  {
    assert Recopy(x).copies[..|x.copies|] == x.copies;
    InFlightSplit(x.copies, |x.copies| - 1);
  }

  /** A new listener and a send that is not the last give the slice something to strand. */
  lemma SendWaits(size: nat, acts: seq<Action>, grow: nat, v: Backlog)
    requires Run(size, acts).fault == NoFault && !Run(size, acts).canceled && Run(size, acts).remaining >= 2
    ensures var l, t := |Run(size, acts).listeners|, Run(size, acts + [Listen(grow)] + [Send(v)]);
            t.fault == NoFault && !t.canceled && t.remaining > 0 && l in t.slice && Waits(t, l)
  {
    var l := |Run(size, acts).listeners|;
    JoinOpen(size, acts, grow, l);
    var s := Run(size, acts + [Listen(grow)]);
    assert l in s.slice;
    InvHolds(size, acts + [Listen(grow)]);
    History(size, acts + [Listen(grow)], Send(v), 0);
    assert v in Current(Post(s.listeners[l], v)).inbox;
  }

  lemma JoinAndSend(growth: nat -> nat, size: nat, acts: seq<Action>) returns (more: seq<Action>, l: nat)
    requires Run(size, acts).fault == NoFault && !Run(size, acts).canceled && Run(size, acts).remaining >= 2
    ensures Grows(growth, size, acts, more)
    ensures var t := Run(size, acts + more);
            t.fault == NoFault && !t.canceled && t.remaining > 0 && l in t.slice && Waits(t, l)
  {
    hide Run, Waits;
    var grow, v := growth(|Run(size, acts).slice|), Backlog(0, "", "");
    l := |Run(size, acts).listeners|;
    SendWaits(size, acts, grow, v);
    GrowsOne(growth, size, acts);
    more := [Listen(grow)];
    GrowsOn(growth, size, acts, more, [Send(v)]);
    more := more + [Send(v)];
  }

  lemma Provoke(growth: nat -> nat, size: nat, acts: seq<Action>) returns (more: seq<Action>)
    requires Run(size, acts).fault == NoFault && AtRisk(Run(size, acts)) && !Exposed(Run(size, acts))
    ensures Grows(growth, size, acts, more)
    ensures Run(size, acts + more).fault == NoFault && Exposed(Run(size, acts + more))
  {
    hide Run, Exposed, Waits, Grows;
    var s := Run(size, acts);
    if s.remaining >= 2 {
      var first, l := JoinAndSend(growth, size, acts);
      var rest := JoinUntilStranded(growth, size, acts + first, l);
      GrowsOn(growth, size, acts, first, rest);
      more := first + rest;
    } else {
      var l :| l in s.slice && Waits(s, l);
      more := JoinUntilStranded(growth, size, acts, l);
    }
  }

  lemma RiskIsReal(growth: nat -> nat, size: nat, acts: seq<Action>) returns (more: seq<Action>)
    requires Run(size, acts).fault == NoFault && AtRisk(Run(size, acts))
    ensures Grows(growth, size, acts, more) && Run(size, acts + more).fault == SendOnClosed
  {
    hide AtRisk, Exposed, Grows;
    var first := [];
    assert acts + [] == acts;
    assert Grows(growth, size, acts, []) by { GrowsWithoutListen(growth, size, acts, []); }
    if !Exposed(Run(size, acts)) {
      first := Provoke(growth, size, acts);
    }
    var rest := ExposureCrashes(size, acts + first);
    ExecSplit(Init(size), acts + first, rest);
    GrowsWithoutListen(growth, size, acts + first, rest);
    GrowsOn(growth, size, acts, first, rest);
    more := first + rest;
  }

  lemma GrowsWithoutListen(growth: nat -> nat, size: nat, acts: seq<Action>, more: seq<Action>)
    requires ListenFree(more)
    ensures Grows(growth, size, acts, more)
  {
  }

  /** The crash, exactly: a run can go on to send on a closed channel if and only if a send is stranded
      while the update is canceled or can be; or, not being canceled, it has two values or more to come;
      or it has one, and a send waits on the slice.  It makes no difference how far `append` grows a slice:
      with the risk there is such a run for every growth function, and without it there is none at all. */
  lemma CrashReachableExactly(growth: nat -> nat, size: nat, acts: seq<Action>)
    requires Run(size, acts).fault == NoFault
    ensures (exists more :: Grows(growth, size, acts, more) && Run(size, acts + more).fault == SendOnClosed)
            <==> AtRisk(Run(size, acts))
    ensures (exists more :: Run(size, acts + more).fault == SendOnClosed) <==> AtRisk(Run(size, acts))
  {
    if AtRisk(Run(size, acts)) {
      var more := RiskIsReal(growth, size, acts);
    } else {
      forall more ensures Run(size, acts + more).fault != SendOnClosed {
        SafeRun(size, acts, more);
      }
    }
  }
}
