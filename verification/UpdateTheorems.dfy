/** What monitor/update.go promises, over every schedule. */
module UpdateTheorems {
  import opened Dfsr
  import opened UpdateProtocol
  import opened UpdateInvariant

  // ---------------------------------------------------------------- faults

  lemma {:induction false} OnlyTwoFaults(size: nat, acts: seq<Action>)
    ensures Run(size, acts).fault in {NoFault, SendAfterDone, SendOnClosed}
  {
    if acts == [] {
    } else {
      var before := acts[..|acts| - 1];
      OnlyTwoFaults(size, before);
      if Run(size, before).fault == NoFault {
        NextFault(size, before, acts[|acts| - 1]);
      }
    }
  }

  lemma {:induction false} ValuesAreSends(size: nat, acts: seq<Action>)
    requires Run(size, acts).fault == NoFault
    ensures |Run(size, acts).values| <= Sends(acts)
    ensures !Run(size, acts).canceled ==> |Run(size, acts).values| == Sends(acts)
  {
    if acts == [] {
    } else {
      ValuesAreSends(size, acts[..|acts| - 1]);
    }
  }

  /** The panic for a late value needs more sends than the round has values. */
  lemma {:induction false} WithinBudget(size: nat, acts: seq<Action>)
    requires Sends(acts) <= size
    ensures Run(size, acts).fault != SendAfterDone
  {
    if acts == [] {
    } else {
      var before := acts[..|acts| - 1];
      WithinBudget(size, before);
      if Run(size, before).fault == NoFault {
        NextFault(size, before, acts[|acts| - 1]);
        ValuesAreSends(size, before);
      }
    }
  }

  /** A send on a closed channel needs a reallocation that cut some listener off from waiting sends. */
  lemma {:induction false} ClosedSendNeedsLoss(size: nat, acts: seq<Action>)
    requires Run(size, acts).fault == SendOnClosed
    ensures exists l: nat :: Lost(size, acts, l) > 0
  {
    var before, a := acts[..|acts| - 1], acts[|acts| - 1];
    if Run(size, before).fault == NoFault {
      NextFault(size, before, a);
      InvHolds(size, before);
      var x := Run(size, before).listeners[a.l];
      SubCard(multiset{a.v}, Stranded(x));
      assert Lost(size, before, a.l) > 0;
      assert Lost(size, acts, a.l) > 0;
    } else {
      ClosedSendNeedsLoss(size, before);
      var l: nat :| Lost(size, before, l) > 0;
      assert Lost(size, acts, l) > 0;
    }
  }

  // ---------------------------------------------------------------- counters

  lemma Accounting(size: nat, acts: seq<Action>)
    ensures var s := Run(size, acts);
            s.fault == NoFault ==>
              && |s.values| + s.remaining == size
              && s.remaining >= 0
              && s.received == if s.canceled then 0 else s.remaining
  {
    InvHolds(size, acts);
  }

  lemma {:induction false} ExecSplit(s: State, acts: seq<Action>, more: seq<Action>)
    ensures Exec(s, acts + more) == Exec(Exec(s, acts), more)
  {
    if more == [] {
      assert acts + more == acts;
    } else {
      var last := |more| - 1;
      ExecSplit(s, acts, more[..last]);
      assert (acts + more)[..|acts + more| - 1] == acts + more[..last];
    }
  }

  lemma FinalStep(s: State, a: Action)
    requires s.fault == NoFault ==> Shape(s)
    requires s.received == 0
    ensures Step(s, a).values == s.values && Step(s, a).received == 0
  {
  }

  /** Once `Values` can return, its result is final: no later step changes it. */
  lemma {:induction false} ValuesAreFinal(size: nat, acts: seq<Action>, more: seq<Action>)
    requires Run(size, acts).received == 0
    ensures Run(size, acts + more).values == Run(size, acts).values
    ensures Run(size, acts + more).received == 0
  {
    if more == [] {
      assert acts + more == acts;
    } else {
      var before := acts + more[..|more| - 1];
      ValuesAreFinal(size, acts, more[..|more| - 1]);
      assert acts + more == before + [more[|more| - 1]];
      History(size, before, more[|more| - 1], 0);
      InvHolds(size, before);
      FinalStep(Run(size, before), more[|more| - 1]);
    }
  }

  // ---------------------------------------------------------------- delivery

  /** What a channel holds plus what is in flight to it is exactly what the update has received;
      cancellation can only take values away. */
  lemma ExactlyOnce(size: nat, acts: seq<Action>, l: nat)
    requires Run(size, acts).fault == NoFault && l < |Run(size, acts).listeners|
    ensures var s := Run(size, acts);
            var x := s.listeners[l];
            && multiset(x.ch.sent) + InFlight(x.copies) <= multiset(s.values)
            && (!s.canceled ==> multiset(x.ch.sent) + InFlight(x.copies) == multiset(s.values))
            && |x.ch.sent| + |InFlight(x.copies)| <= size
  {
    InvHolds(size, acts);
    var s := Run(size, acts);
    var x := s.listeners[l];
    SubCard(multiset(x.ch.sent) + InFlight(x.copies), multiset(s.values));
  }

  /** The documentation of Listen says that the channel is closed once all values have been sent.
      It is, in every uncanceled state, for exactly these listeners: those that joined before the last
      value arrived and that no reallocation of the slice cut off from a waiting send. */
  lemma ClosedExactlyWhenComplete(size: nat, acts: seq<Action>, l: nat)
    requires Run(size, acts).fault == NoFault && !Run(size, acts).canceled
    requires l < |Run(size, acts).listeners|
    ensures var x := Run(size, acts).listeners[l];
            x.ch.closed <==>
              |x.ch.sent| == size && (size == 0 || (JoinedEarly(size, acts, l) && Lost(size, acts, l) == 0))
  {
    InvHolds(size, acts);
    EmptyRound(size, acts, l);
    ClosedWhenComplete(Run(size, acts), l, Lost(size, acts, l), JoinedEarly(size, acts, l));
  }

  /** Without values to wait for, Listen registers nobody. */
  lemma {:induction false} EmptyRound(size: nat, acts: seq<Action>, l: nat)
    requires l < |Run(size, acts).listeners|
    ensures size == 0 ==> Run(size, acts).listeners[l].copies == []
  {
    if acts == [] {
    } else {
      var before, a := acts[..|acts| - 1], acts[|acts| - 1];
      var s := Run(size, before);
      OnlyListenJoins(s, a);
      SizeIsFixed(size, before);
      if l < |s.listeners| {
        EmptyRound(size, before, l);
      }
    }
  }

  lemma {:induction false} SizeIsFixed(size: nat, acts: seq<Action>)
    ensures Run(size, acts).size == size
  {
    if acts == [] {
    } else {
      SizeIsFixed(size, acts[..|acts| - 1]);
    }
  }

  lemma ClosedWhenComplete(s: State, l: nat, lost: nat, early: bool)
    requires Shape(s) && !s.canceled && l < |s.listeners| && ListenerInv(s, s.listeners[l], lost, early)
    requires s.size == 0 ==> s.listeners[l].copies == []
    ensures var x := s.listeners[l];
            x.ch.closed <==> |x.ch.sent| == s.size && (s.size == 0 || (early && lost == 0))
  {
    var x := s.listeners[l];
    assert |multiset(x.ch.sent)| == |x.ch.sent| && |multiset(s.values)| == |s.values|;
    if x.copies != [] && early {
      assert |multiset(x.ch.sent)| + |InFlight(x.copies)| == |multiset(s.values)|;
      assert |InFlight(x.copies)| == |Stranded(x)| + |Current(x).inbox|;
    }
  }

  /** A late listener: it joined when no value was to come. */
  lemma {:induction false} LateMeansDone(size: nat, acts: seq<Action>, l: nat)
    requires l < |Run(size, acts).listeners| && !JoinedEarly(size, acts, l)
    ensures Run(size, acts).remaining <= 0
  {
    if acts == [] {
    } else {
      var before, a := acts[..|acts| - 1], acts[|acts| - 1];
      OnlyListenJoins(Run(size, before), a);
      if l < |Run(size, before).listeners| {
        LateMeansDone(size, before, l);
      }
    }
  }

  lemma FaultChangesNothingElse(s: State, a: Action)
    requires s.fault == NoFault ==> Shape(s)
    ensures Step(s, a).fault != NoFault ==> Step(s, a) == s.(fault := Step(s, a).fault)
  {
  }

  /** What came before a fault stays as it was. */
  lemma {:induction false} JoinedStays(size: nat, acts: seq<Action>, more: seq<Action>, l: nat)
    requires l < |Run(size, acts).listeners|
    ensures l < |Run(size, acts + more).listeners|
    ensures JoinedEarly(size, acts + more, l) == JoinedEarly(size, acts, l)
  {
    hide Step, Run, JoinedEarly;
    if more == [] {
      assert acts + more == acts;
    } else {
      var before, a := acts + more[..|more| - 1], more[|more| - 1];
      JoinedStays(size, acts, more[..|more| - 1], l);
      assert acts + more == before + [a];
      History(size, before, a, l);
      OnlyListenJoins(Run(size, before), a);
    }
  }

  lemma LateIsOpen(size: nat, acts: seq<Action>, l: nat)
    requires size > 0 && Run(size, acts).fault == NoFault
    requires l < |Run(size, acts).listeners| && !JoinedEarly(size, acts, l)
    ensures !Run(size, acts).listeners[l].ch.closed
  {
    InvHolds(size, acts);
    LateMeansDone(size, acts, l);
  }

  /** The channel of a listener that joined after the last value is never closed, whatever follows. */
  lemma {:induction false} LateNeverCloses(size: nat, acts: seq<Action>, more: seq<Action>, l: nat)
    requires size > 0 && Run(size, acts).fault == NoFault
    requires l < |Run(size, acts).listeners| && !JoinedEarly(size, acts, l)
    ensures l < |Run(size, acts + more).listeners| && !Run(size, acts + more).listeners[l].ch.closed
  {
    hide Step, Run;
    if more == [] {
      assert acts + more == acts;
      LateIsOpen(size, acts, l);
    } else {
      JoinedStays(size, acts, more, l);
      if Run(size, acts + more).fault == NoFault {
        LateIsOpen(size, acts + more, l);
      } else {
        LateNeverCloses(size, acts, more[..|more| - 1], l);
        SameButFault(size, acts, more);
      }
    }
  }

  lemma SameButFault(size: nat, acts: seq<Action>, more: seq<Action>)
    requires more != [] && Run(size, acts + more).fault != NoFault
    ensures var s, t := Run(size, acts + more[..|more| - 1]), Run(size, acts + more); t == s.(fault := t.fault)
  {
    var before, a := acts + more[..|more| - 1], more[|more| - 1];
    assert acts + more == before + [a];
    History(size, before, a, 0);
    InvHolds(size, before);
    FaultChangesNothingElse(Run(size, before), a);
  }

  lemma DoneStep(s: State, a: Action)
    requires s.remaining == 0 && !s.canceled
    ensures Step(s, a).remaining == 0 && !Step(s, a).canceled
  {
  }

  lemma {:induction false} DoneStays(size: nat, acts: seq<Action>, more: seq<Action>, l: nat)
    requires Run(size, acts).remaining == 0 && !Run(size, acts).canceled
    ensures Run(size, acts + more).remaining == 0 && !Run(size, acts + more).canceled
    ensures Lost(size, acts + more, l) >= Lost(size, acts, l)
  {
    hide Step, Run;
    if more == [] {
      assert acts + more == acts;
    } else {
      var before, a := acts + more[..|more| - 1], more[|more| - 1];
      DoneStays(size, acts, more[..|more| - 1], l);
      assert acts + more == before + [a];
      History(size, before, a, l);
      DoneStep(Run(size, before), a);
    }
  }

  /** Nor is, once the last value has come, the channel of a listener that was cut off from a send. */
  lemma {:induction false} CutOffNeverCloses(size: nat, acts: seq<Action>, more: seq<Action>, l: nat)
    requires size > 0 && Run(size, acts).fault == NoFault && !Run(size, acts).canceled
    requires Run(size, acts).remaining == 0 && l < |Run(size, acts).listeners| && Lost(size, acts, l) > 0
    ensures l < |Run(size, acts + more).listeners| && !Run(size, acts + more).listeners[l].ch.closed
  {
    hide Step, Run, Lost;
    if more == [] {
      assert acts + more == acts;
      ClosedExactlyWhenComplete(size, acts, l);
    } else {
      JoinedStays(size, acts, more, l);
      DoneStays(size, acts, more, l);
      if Run(size, acts + more).fault == NoFault {
        ClosedExactlyWhenComplete(size, acts + more, l);
      } else {
        CutOffNeverCloses(size, acts, more[..|more| - 1], l);
        SameButFault(size, acts, more);
      }
    }
  }

  /** After a cancel, once every spawned goroutine has run, every channel is closed. */
  lemma CanceledChannelsClose(size: nat, acts: seq<Action>, l: nat)
    requires Run(size, acts).fault == NoFault && Run(size, acts).canceled
    requires l < |Run(size, acts).listeners|
    requires forall g :: 0 <= g < |Run(size, acts).listeners[l].copies| ==>
                           Run(size, acts).listeners[l].copies[g].cancels == 0
    ensures Run(size, acts).listeners[l].ch.closed
  {
    InvHolds(size, acts);
  }

  // ---------------------------------------------------------------- the reallocation, exactly

  ghost predicate Exposed(s: State) {
    exists l :: 0 <= l < |s.listeners| && Stranded(s.listeners[l]) != multiset{} && (s.canceled || s.remaining > 0)
  }

  ghost predicate ListenFree(acts: seq<Action>) {
    forall i :: 0 <= i < |acts| ==> !acts[i].Listen?
  }

  lemma {:induction false} FindWaiting(copies: seq<Copy>) returns (g: nat, v: Backlog)
    requires InFlight(copies) != multiset{}
    ensures g < |copies| && v in copies[g].inbox
  {
    var last := |copies| - 1;
    if copies[last].inbox != multiset{} {
      g := last;
      v :| v in copies[last].inbox;
    } else {
      assert InFlight(copies) == InFlight(copies[..last]);
      g, v := FindWaiting(copies[..last]);
    }
  }

  lemma StrandedUpdate(x: Listener, y: Listener, g: nat, v: Backlog)
    requires g < |x.copies| && v in x.copies[g].inbox
    requires |y.copies| == |x.copies| && y.copies == x.copies[g := y.copies[g]]
    requires y.copies[g].inbox == x.copies[g].inbox - multiset{v}
    ensures Stranded(y) <= Stranded(x)
  {
    var last := |x.copies| - 1;
    if g < last {
      assert y.copies[..last] == x.copies[..last][g := y.copies[g]];
      InFlightUpdate(x.copies[..last], g, y.copies[g], v);
    } else {
      assert y.copies[..last] == x.copies[..last];
    }
  }

  lemma StrandedSame(x: Listener, y: Listener, g: nat)
    requires g < |x.copies|
    requires |y.copies| == |x.copies| && y.copies == x.copies[g := y.copies[g]]
    requires y.copies[g].inbox == x.copies[g].inbox || g == |x.copies| - 1
    ensures Stranded(y) == Stranded(x)
  {
    var last := |x.copies| - 1;
    if g < last {
      assert y.copies[..last] == x.copies[..last][g := y.copies[g]];
      InFlightSame(x.copies[..last], g, y.copies[g]);
    } else {
      assert y.copies[..last] == x.copies[..last];
    }
  }

  lemma StrandedByPost(s: State, a: Action, l: nat)
    requires s.fault == NoFault && (a.Send? || a.Cancel?) && l < |s.listeners|
    ensures l < |Step(s, a).listeners|
    ensures Stranded(Step(s, a).listeners[l]) == Stranded(s.listeners[l])
  {
    var x, y := s.listeners[l], Step(s, a).listeners[l];
    if x.copies != [] {
      StrandedSame(x, y, |x.copies| - 1);
    }
  }

  lemma StrandedByRunSend(s: State, m: nat, g: nat, v: Backlog, l: nat)
    requires l < |s.listeners|
    ensures var t := RunSendStep(s, m, g, v);
            l < |t.listeners| && Stranded(t.listeners[l]) <= Stranded(s.listeners[l])
  {
    if m == l && CanRunSend(s, l, g, v) {
      var p := Deliver(s.listeners[l], g, v);
      if p.1 == NoFault {
        StrandedUpdate(s.listeners[l], p.0, g, v);
      }
    }
  }

  lemma StrandedByRunCancel(s: State, m: nat, g: nat, l: nat)
    requires l < |s.listeners|
    ensures var t := RunCancelStep(s, m, g);
            l < |t.listeners| && Stranded(t.listeners[l]) <= Stranded(s.listeners[l])
  {
    if m == l && CanRunCancel(s, l, g) {
      var p := DeliverCancel(s.listeners[l], g);
      if p.1 == NoFault {
        StrandedSame(s.listeners[l], p.0, g);
      }
    }
  }

  lemma StrandedShrinks(s: State, a: Action, l: nat)
    requires s.fault == NoFault && !a.Listen?
    requires l < |Step(s, a).listeners|
    ensures l < |s.listeners|
    ensures Stranded(Step(s, a).listeners[l]) <= Stranded(s.listeners[l])
  {
    OnlyListenJoins(s, a);
    match a
    case Send(v) => StrandedByPost(s, a, l);
    case Cancel => StrandedByPost(s, a, l);
    case RunSend(m, g, v) => StrandedByRunSend(s, m, g, v, l);
    case RunCancel(m, g) => StrandedByRunCancel(s, m, g, l);
    case Receive(m) => assert Step(s, a).listeners[l].copies == s.listeners[l].copies;
  }

  lemma OpenWasOpen(s: State, a: Action)
    requires Shape(s) && (Step(s, a).canceled || Step(s, a).remaining > 0)
    ensures s.canceled || s.remaining > 0
  {
  }

  lemma UnexposedStep(s: State, a: Action)
    requires s.fault == NoFault && Shape(s) && !Exposed(s) && !a.Listen?
    requires Step(s, a).fault == NoFault
    ensures !Exposed(Step(s, a))
  {
    var t := Step(s, a);
    if t.canceled || t.remaining > 0 {
      OpenWasOpen(s, a);
      forall l | 0 <= l < |t.listeners| ensures Stranded(t.listeners[l]) == multiset{} {
        StrandedShrinks(s, a, l);
      }
    }
  }

  lemma {:induction false} UnexposedRun(size: nat, acts: seq<Action>, more: seq<Action>)
    requires Run(size, acts).fault == NoFault && !Exposed(Run(size, acts)) && ListenFree(more)
    ensures Run(size, acts + more).fault != SendOnClosed
    ensures Run(size, acts + more).fault == NoFault ==> !Exposed(Run(size, acts + more))
  {
    if more == [] {
      assert acts + more == acts;
    } else {
      var last := |more| - 1;
      UnexposedRun(size, acts, more[..last]);
      var before := acts + more[..last];
      assert acts + more == before + [more[last]];
      History(size, before, more[last], 0);
      if Run(size, before).fault == NoFault {
        NextFault(size, before, more[last]);
        InvHolds(size, before);
        if Run(size, acts + more).fault == NoFault {
          UnexposedStep(Run(size, before), more[last]);
        }
      }
    }
  }

  /** From a closed channel with a send stranded on an old copy, that send crashes. */
  lemma StrandedSendCrashes(s: State, l: nat, g: nat, v: Backlog)
    requires s.fault == NoFault && l < |s.listeners| && g < |s.listeners[l].copies|
    requires v in s.listeners[l].copies[g].inbox && s.listeners[l].copies[g].open && s.listeners[l].ch.closed
    ensures Exec(s, [RunSend(l, g, v)]).fault == SendOnClosed
  {
    assert [RunSend(l, g, v)][..0] == [];
  }

  lemma CanceledExposureCrashes(size: nat, acts: seq<Action>, l: nat) returns (more: seq<Action>)
    requires Run(size, acts).fault == NoFault && Run(size, acts).canceled && l < |Run(size, acts).listeners|
    requires Stranded(Run(size, acts).listeners[l]) != multiset{}
    ensures ListenFree(more) && Exec(Run(size, acts), more).fault == SendOnClosed
  {
    InvHolds(size, acts);
    var s := Run(size, acts);
    var x := s.listeners[l];
    var last := |x.copies| - 1;
    var g, v := FindWaiting(x.copies[..last]);
    assert LeftBehind(x.copies[g], JoinedEarly(size, acts, l));
    if x.ch.closed {
      more := [RunSend(l, g, v)];
      StrandedSendCrashes(s, l, g, v);
    } else {
      more := [RunCancel(l, last)] + [RunSend(l, g, v)];
      assert [RunCancel(l, last)][..0] == [];
      var t := Step(s, RunCancel(l, last));
      assert Exec(s, [RunCancel(l, last)]) == t;
      ExecSplit(s, [RunCancel(l, last)], [RunSend(l, g, v)]);
      StrandedSendCrashes(t, l, g, v);
    }
  }

  lemma CancelFirst(size: nat, acts: seq<Action>, rest: seq<Action>)
    ensures Run(size, acts + [Cancel]) == Step(Run(size, acts), Cancel)
    ensures Exec(Run(size, acts), [Cancel] + rest) == Exec(Run(size, acts + [Cancel]), rest)
  {
    History(size, acts, Cancel, 0);
    assert [Cancel][..0] == [];
    assert Exec(Run(size, acts), [Cancel]) == Step(Run(size, acts), Cancel);
    ExecSplit(Run(size, acts), [Cancel], rest);
  }

  /** Cancel leaves what is stranded where it is. */
  lemma CancelExposes(size: nat, acts: seq<Action>, l: nat)
    requires Run(size, acts).fault == NoFault && !Run(size, acts).canceled && Run(size, acts).remaining > 0
    requires l < |Run(size, acts).listeners| && Stranded(Run(size, acts).listeners[l]) != multiset{}
    ensures var t := Run(size, acts + [Cancel]);
            && t.fault == NoFault && t.canceled
            && l < |t.listeners| && Stranded(t.listeners[l]) != multiset{}
  {
    InvHolds(size, acts);
    StrandedByPost(Run(size, acts), Cancel, l);
    CancelFirst(size, acts, []);
    hide Run, Exec, Stranded;
  }

  lemma ExposureCrashes(size: nat, acts: seq<Action>) returns (more: seq<Action>)
    requires Run(size, acts).fault == NoFault && Exposed(Run(size, acts))
    ensures ListenFree(more) && Exec(Run(size, acts), more).fault == SendOnClosed
  {
    hide Run, Exec, Stranded;
    var s := Run(size, acts);
    var l :| 0 <= l < |s.listeners| && Stranded(s.listeners[l]) != multiset{};
    if s.canceled {
      more := CanceledExposureCrashes(size, acts, l);
    } else {
      CancelExposes(size, acts, l);
      var rest := CanceledExposureCrashes(size, acts + [Cancel], l);
      CancelFirst(size, acts, rest);
      more := [Cancel] + rest;
    }
  }

  /** The crash, exactly: without further Listen calls a run can go on to send on a closed channel if and
      only if a send is stranded on a struct copy that the slice no longer holds while the update is
      canceled or can still be canceled. */
  lemma CrashIffStranded(size: nat, acts: seq<Action>)
    requires Run(size, acts).fault == NoFault
    ensures (exists more :: ListenFree(more) && Exec(Run(size, acts), more).fault == SendOnClosed)
            <==> Exposed(Run(size, acts))
  {
    if Exposed(Run(size, acts)) {
      var more := ExposureCrashes(size, acts);
    } else {
      forall more | ListenFree(more) ensures Exec(Run(size, acts), more).fault != SendOnClosed {
        UnexposedRun(size, acts, more);
        ExecSplit(Init(size), acts, more);
      }
    }
  }

  // ---------------------------------------------------------------- two listeners fit the initial slice

  function Listens(acts: seq<Action>): nat {
    if acts == [] then 0
    else Listens(acts[..|acts| - 1]) + if acts[|acts| - 1].Listen? then 1 else 0
  }

  lemma {:induction false} SliceRoom(size: nat, acts: seq<Action>)
    requires Run(size, acts).fault == NoFault
    ensures var s := Run(size, acts);
            && |s.slice| <= Listens(acts)
            && (!s.canceled && s.remaining > 0 ==> s.capacity >= 2)
  {
    if acts == [] {
    } else {
      SliceRoom(size, acts[..|acts| - 1]);
    }
  }

  lemma {:induction false} TwoListenersLoseNothing(size: nat, acts: seq<Action>, l: nat)
    requires Listens(acts) <= 2
    ensures Lost(size, acts, l) == 0
  {
    if acts == [] {
    } else {
      var before, a := acts[..|acts| - 1], acts[|acts| - 1];
      TwoListenersLoseNothing(size, before, l);
      var s := Run(size, before);
      if s.fault == NoFault {
        SliceRoom(size, before);
        InvHolds(size, before);
      }
    }
  }

  /** With at most two Listen calls and no more sends than values, no channel operation ever goes wrong. */
  lemma TwoListenersAreSafe(size: nat, acts: seq<Action>)
    requires Listens(acts) <= 2 && Sends(acts) <= size
    ensures Run(size, acts).fault == NoFault
  {
    OnlyTwoFaults(size, acts);
    WithinBudget(size, acts);
    if Run(size, acts).fault == SendOnClosed {
      ClosedSendNeedsLoss(size, acts);
      var l: nat :| Lost(size, acts, l) > 0;
      TwoListenersLoseNothing(size, acts, l);
    }
  }

  // ---------------------------------------------------------------- listeners that join before the first send

  /** Every Listen comes before the first Send. */
  ghost predicate JoinFirst(acts: seq<Action>) {
    forall i, j :: 0 <= i < j < |acts| && acts[i].Send? ==> !acts[j].Listen?
  }

  lemma {:induction false} NoSends(acts: seq<Action>)
    requires forall i :: 0 <= i < |acts| ==> !acts[i].Send?
    ensures Sends(acts) == 0
  {
    if acts == [] {
    } else {
      NoSends(acts[..|acts| - 1]);
    }
  }

  lemma NothingWaits(size: nat, acts: seq<Action>, l: nat)
    requires Sends(acts) == 0 && Run(size, acts).fault == NoFault && l < |Run(size, acts).listeners|
    requires Run(size, acts).listeners[l].copies != []
    ensures Current(Run(size, acts).listeners[l]).inbox == multiset{}
  {
    ValuesAreSends(size, acts);
    ExactlyOnce(size, acts, l);
    hide Run;
    var copies := Run(size, acts).listeners[l].copies;
    InFlightSplit(copies, |copies| - 1);
  }

  /** Listeners that all join before the first send are never cut off from one, however many they are. */
  lemma {:induction false} JoinFirstLosesNothing(size: nat, acts: seq<Action>, l: nat)
    requires JoinFirst(acts)
    ensures Lost(size, acts, l) == 0
  {
    if acts == [] {
    } else {
      var before, a := acts[..|acts| - 1], acts[|acts| - 1];
      JoinFirstLosesNothing(size, before, l);
      var s := Run(size, before);
      if a.Listen? && s.fault == NoFault && l < |s.listeners| && s.listeners[l].copies != [] {
        assert a == acts[|before|];
        NoSends(before);
        NothingWaits(size, before, l);
      }
    }
  }

  /** So with no more sends than values, no channel operation ever goes wrong. */
  lemma JoinFirstIsSafe(size: nat, acts: seq<Action>)
    requires JoinFirst(acts) && Sends(acts) <= size
    ensures Run(size, acts).fault == NoFault
  {
    OnlyTwoFaults(size, acts);
    WithinBudget(size, acts);
    if Run(size, acts).fault == SendOnClosed {
      ClosedSendNeedsLoss(size, acts);
      var l: nat :| Lost(size, acts, l) > 0;
      JoinFirstLosesNothing(size, acts, l);
    }
  }
}
