/** What every step of the update fan-out keeps. */
module UpdateInvariant {
  import opened Base
  import opened Dfsr
  import opened UpdateProtocol

  // ---------------------------------------------------------------- bookkeeping of the update itself

  /** A copy the slice has left behind: never closed, and holding back more than it will ever see. */
  ghost predicate LeftBehind(c: Copy, early: bool) {
    && c.open
    && c.cancels == 0
    && if early then c.remaining > |c.inbox| else c.remaining == 0 && c.inbox == multiset{}
  }

  lemma DistinctAppend(slice: seq<nat>, id: nat)
    requires Distinct(slice) && id !in slice
    ensures Distinct(slice + [id])
  {
    assert forall i :: 0 <= i < |slice| ==> slice[i] in slice;
  }

  ghost predicate Shape(s: State) {
    && |s.values| + s.remaining == s.size
    && s.remaining >= 0
    && s.received == (if s.canceled then 0 else s.remaining)
    && (s.canceled ==> s.remaining > 0)
    && Distinct(s.slice)
    && (forall l :: l in s.slice ==> l < |s.listeners| && s.listeners[l].copies != [])
    && (s.canceled || s.size == 0 ==> s.slice == [])
    && (s.remaining == 0 ==>
          forall l :: l in s.slice ==> LeftBehind(Current(s.listeners[l]), false))
    && (!s.canceled && s.remaining > 0 ==>
          forall l :: 0 <= l < |s.listeners| && s.listeners[l].copies != [] ==> l in s.slice)
  }

  /** A step on one listener that keeps its number of copies, and its current copy if that one is spent. */
  lemma ShapeLocal(s: State, t: State, l: nat, p: Listener)
    requires Shape(s) && l < |s.listeners|
    requires t == s.(listeners := s.listeners[l := p])
    requires |p.copies| == |s.listeners[l].copies|
    requires p.copies != [] && LeftBehind(Current(s.listeners[l]), false) ==> Current(p) == Current(s.listeners[l])
    ensures Shape(t)
  {
    forall m | m in t.slice ensures m < |t.listeners| && t.listeners[m].copies != [] {
      assert m in s.slice;
    }
  }

  lemma ShapeListen(s: State, grow: nat)
    requires Shape(s) && ListenStep(s, grow).fault == NoFault
    ensures Shape(ListenStep(s, grow))
  {
    DistinctAppend(s.slice, |s.listeners|);
  }

  lemma ShapeSend(s: State, v: Backlog)
    requires Shape(s) && SendStep(s, v).fault == NoFault
    ensures Shape(SendStep(s, v))
  {
  }

  lemma ShapeStep(s: State, a: Action)
    requires Shape(s) && Step(s, a).fault == NoFault
    ensures Shape(Step(s, a))
  {
    var t := Step(s, a);
    match a
    case Listen(grow) => ShapeListen(s, grow);
    case Send(v) => ShapeSend(s, v);
    case Cancel =>
    case RunSend(l, g, v) =>
      if CanRunSend(s, l, g, v) {
        var p := Deliver(s.listeners[l], g, v).0;
        ShapeLocal(s, t, l, p);
      }
    case RunCancel(l, g) =>
      if CanRunCancel(s, l, g) {
        ShapeLocal(s, t, l, DeliverCancel(s.listeners[l], g).0);
      }
    case Receive(l) =>
      if t != s {
        ShapeLocal(s, t, l, t.listeners[l]);
      }
  }

  // ---------------------------------------------------------------- one listener

  ghost predicate Live(s: State, l: Listener, lost: nat)
    requires l.copies != []
  {
    var c := Current(l);
    && c.cancels == 0
    && c.remaining == |c.inbox| + s.remaining + lost
    && (c.open <==> c.remaining > 0)
    && (l.ch.closed <==> !c.open)
    && multiset(l.ch.sent) + InFlight(l.copies) == multiset(s.values)
  }

  ghost predicate Canceled(s: State, l: Listener)
    requires l.copies != []
  {
    var c := Current(l);
    && c.cancels <= 1
    && (c.open <==> c.cancels == 1)
    && (l.ch.closed <==> !c.open)
    && (c.open ==> c.remaining > |c.inbox|)
    && multiset(l.ch.sent) + InFlight(l.copies) <= multiset(s.values)
  }

  ghost predicate Late(s: State, l: Listener, lost: nat)
    requires l.copies != []
  {
    && LeftBehind(Current(l), false)
    && s.remaining == 0
    && !l.ch.closed
    && lost == 0
    && multiset(l.ch.sent) == multiset(s.values)
    && InFlight(l.copies) == multiset{}
  }

  ghost predicate ListenerInv(s: State, l: Listener, lost: nat, early: bool) {
    && l.ch.taken <= |l.ch.sent|
    && (forall g :: 0 <= g < |l.copies| - 1 ==> LeftBehind(l.copies[g], early))
    && |Stranded(l)| <= lost
    && if l.copies == [] then
         (s.size == 0 || s.canceled) && l.ch.closed && lost == 0 && multiset(l.ch.sent) == multiset(s.values)
       else
         l.ch.cap == s.size &&
         if !early then !s.canceled && Late(s, l, lost)
         else if s.canceled then Canceled(s, l)
         else Live(s, l, lost)
  }

  // ---------------------------------------------------------------- multisets of waiting sends

  lemma SubCard<T>(a: multiset<T>, b: multiset<T>)
    requires a <= b
    ensures |a| <= |b|
  {
    assert b == a + (b - a);
  }

  lemma {:induction false} InFlightSplit(copies: seq<Copy>, g: nat)
    requires g < |copies|
    ensures copies[g].inbox <= InFlight(copies)
  {
    var last := |copies| - 1;
    if g == last {
    } else {
      InFlightSplit(copies[..last], g);
    }
  }

  lemma {:induction false} InFlightUpdate(copies: seq<Copy>, g: nat, c: Copy, v: Backlog)
    requires g < |copies| && v in copies[g].inbox && c.inbox == copies[g].inbox - multiset{v}
    ensures InFlight(copies[g := c]) == InFlight(copies) - multiset{v}
    ensures v in InFlight(copies)
  {
    var last := |copies| - 1;
    var changed := copies[g := c];
    assert InFlight(copies) == InFlight(copies[..last]) + copies[last].inbox;
    assert InFlight(changed) == InFlight(changed[..last]) + changed[last].inbox;
    hide InFlight;
    if g < last {
      assert changed[..last] == copies[..last][g := c];
      InFlightUpdate(copies[..last], g, c, v);
    } else {
      assert changed[..last] == copies[..last];
    }
  }

  lemma {:induction false} InFlightSame(copies: seq<Copy>, g: nat, c: Copy)
    requires g < |copies| && c.inbox == copies[g].inbox
    ensures InFlight(copies[g := c]) == InFlight(copies)
  {
    var last := |copies| - 1;
    if g < last {
      assert copies[g := c][..last] == copies[..last][g := c];
      InFlightSame(copies[..last], g, c);
    } else {
      assert copies[g := c][..last] == copies[..last];
    }
  }

  // ---------------------------------------------------------------- each kind of step, seen by one listener

  lemma PostKeeps(s: State, l: Listener, v: Backlog, t: State, lost: nat)
    requires Shape(s) && !s.canceled && s.remaining > 0 && l.copies != []
    requires ListenerInv(s, l, lost, true)
    requires t.size == s.size && !t.canceled && t.values == s.values + [v] && t.remaining == s.remaining - 1
    ensures ListenerInv(t, Post(l, v), lost, true)
  {
    var p := Post(l, v);
    var last := |l.copies| - 1;
    assert p.copies[..last] == l.copies[..last];
    assert multiset(t.values) == multiset(s.values) + multiset{v};
  }

  lemma CancelKeeps(s: State, l: Listener, t: State, lost: nat)
    requires Shape(s) && !s.canceled && s.remaining > 0 && l.copies != []
    requires ListenerInv(s, l, lost, true)
    requires t.size == s.size && t.canceled && t.values == s.values
    ensures ListenerInv(t, PostCancel(l), lost, true)
  {
    var p := PostCancel(l);
    var last := |l.copies| - 1;
    assert p.copies[..last] == l.copies[..last];
  }

  lemma RecopyKeeps(s: State, l: Listener, lost: nat, early: bool)
    requires Shape(s) && !s.canceled && l.copies != []
    requires ListenerInv(s, l, lost, early)
    requires early && s.remaining == 0 ==> LeftBehind(Current(l), false)
    ensures ListenerInv(s, Recopy(l), lost + |Current(l).inbox|, early)
  {
    var p := Recopy(l);
    assert p.copies[..|l.copies|] == l.copies;
    assert InFlight(p.copies) == InFlight(l.copies) + multiset{};
  }

  /** A waiting send finds room: what was sent and what waits never exceeds the round. */
  lemma RoomToSend(s: State, l: Listener, g: nat, v: Backlog, lost: nat, early: bool)
    requires Shape(s) && g < |l.copies| && v in l.copies[g].inbox
    requires ListenerInv(s, l, lost, early)
    ensures early && |l.ch.sent| < l.ch.cap
    ensures l.ch.closed ==> s.canceled
  {
    var last := |l.copies| - 1;
    InFlightSplit(l.copies, g);
    SubCard(multiset{v}, l.copies[g].inbox);
    SubCard(l.copies[g].inbox, InFlight(l.copies));
    SubCard(multiset(l.ch.sent) + InFlight(l.copies), multiset(s.values));
    if g < last {
      InFlightSplit(l.copies[..last], g);
      SubCard(l.copies[g].inbox, Stranded(l));
    }
  }

  /** Moving one value from the waiting sends to the channel. */
  lemma MoveOne(sent: seq<Backlog>, waiting: multiset<Backlog>, v: Backlog)
    requires v in waiting
    ensures multiset(sent + [v]) + (waiting - multiset{v}) == multiset(sent) + waiting
  {
    assert multiset(sent + [v]) == multiset(sent) + multiset{v};
  }

  lemma RemoveOne<T>(m: multiset<T>, v: T)
    requires v in m
    ensures |m - multiset{v}| == |m| - 1
  {
    assert m == (m - multiset{v}) + multiset{v};
  }

  /** What a delivery on a left-behind copy does to the sends in flight. */
  lemma LeftBehindMoves(l: Listener, g: nat, v: Backlog, c: Copy)
    requires g < |l.copies| - 1 && v in l.copies[g].inbox && c.inbox == l.copies[g].inbox - multiset{v}
    ensures var p := Listener(l.ch.(sent := l.ch.sent + [v]), l.copies[g := c]);
            && |Stranded(p)| == |Stranded(l)| - 1
            && multiset(p.ch.sent) + InFlight(p.copies) == multiset(l.ch.sent) + InFlight(l.copies)
  {
    var last := |l.copies| - 1;
    InFlightUpdate(l.copies, g, c, v);
    assert l.copies[g := c][..last] == l.copies[..last][g := c];
    InFlightUpdate(l.copies[..last], g, c, v);
    RemoveOne(Stranded(l), v);
    MoveOne(l.ch.sent, InFlight(l.copies), v);
  }

  lemma DeliverLeftBehind(s: State, l: Listener, g: nat, v: Backlog, lost: nat)
    requires Shape(s) && g < |l.copies| - 1 && v in l.copies[g].inbox
    requires ListenerInv(s, l, lost, true)
    requires !l.ch.closed && |l.ch.sent| < l.ch.cap
    ensures var (p, fault) := Deliver(l, g, v); fault == NoFault && ListenerInv(s, p, lost, true)
  {
    RemoveOne(l.copies[g].inbox, v);
    var c := l.copies[g].(inbox := l.copies[g].inbox - multiset{v}, remaining := l.copies[g].remaining - 1);
    var p := Listener(l.ch.(sent := l.ch.sent + [v]), l.copies[g := c]);
    assert LeftBehind(l.copies[g], true);
    assert Deliver(l, g, v) == (p, NoFault);
    LeftBehindMoves(l, g, v, c);
    assert Current(p) == Current(l);
    if s.canceled {
      assert Canceled(s, p);
    } else {
      assert Live(s, p, lost);
    }
  }

  lemma DeliverCurrentDropped(s: State, l: Listener, v: Backlog, lost: nat)
    requires Shape(s) && l.copies != [] && v in Current(l).inbox && !Current(l).open
    requires ListenerInv(s, l, lost, true)
    ensures var (p, fault) := Deliver(l, |l.copies| - 1, v); fault == NoFault && ListenerInv(s, p, lost, true)
  {
    var last := |l.copies| - 1;
    RemoveOne(Current(l).inbox, v);
    var c := Current(l).(inbox := Current(l).inbox - multiset{v});
    var p := Listener(l.ch, l.copies[last := c]);
    InFlightUpdate(l.copies, last, c, v);
    assert p.copies[..last] == l.copies[..last];
  }

  lemma DeliverCurrentSent(s: State, l: Listener, v: Backlog, lost: nat)
    requires Shape(s) && l.copies != [] && v in Current(l).inbox && Current(l).open
    requires ListenerInv(s, l, lost, true) && |l.ch.sent| < l.ch.cap
    ensures var (p, fault) := Deliver(l, |l.copies| - 1, v); fault == NoFault && ListenerInv(s, p, lost, true)
  {
    var last := |l.copies| - 1;
    var old' := Current(l);
    var inbox := old'.inbox - multiset{v};
    RemoveOne(old'.inbox, v);
    var c := Copy(old'.remaining != 1, old'.remaining - 1, inbox, old'.cancels);
    var p := Listener(Channel(l.ch.cap, l.ch.sent + [v], l.ch.taken, !c.open), l.copies[last := c]);
    assert Deliver(l, last, v) == (p, NoFault);
    InFlightUpdate(l.copies, last, c, v);
    assert p.copies[..last] == l.copies[..last];
    MoveOne(l.ch.sent, InFlight(l.copies), v);
  }

  /** A delivery crashes only on a left-behind copy of a listener that has been canceled. */
  lemma DeliverKeeps(s: State, l: Listener, g: nat, v: Backlog, lost: nat, early: bool)
    requires Shape(s) && g < |l.copies| && v in l.copies[g].inbox
    requires ListenerInv(s, l, lost, early)
    ensures var (p, fault) := Deliver(l, g, v);
            if fault == NoFault then ListenerInv(s, p, lost, early)
            else fault == SendOnClosed && s.canceled && g < |l.copies| - 1
  {
    RoomToSend(s, l, g, v, lost, early);
    if g == |l.copies| - 1 {
      if Current(l).open {
        DeliverCurrentSent(s, l, v, lost);
      } else {
        DeliverCurrentDropped(s, l, v, lost);
      }
    } else if !l.ch.closed {
      DeliverLeftBehind(s, l, g, v, lost);
    } else {
      assert Deliver(l, g, v).1 == SendOnClosed;
    }
  }

  lemma DeliverCancelKeeps(s: State, l: Listener, g: nat, lost: nat, early: bool)
    requires Shape(s) && g < |l.copies| && l.copies[g].cancels > 0
    requires ListenerInv(s, l, lost, early)
    ensures var (p, fault) := DeliverCancel(l, g);
            fault == NoFault && ListenerInv(s, p, lost, early)
  {
    var last := |l.copies| - 1;
    assert g == last;
    var (p, fault) := DeliverCancel(l, g);
    assert p.copies[..last] == l.copies[..last];
    InFlightSame(l.copies, g, p.copies[g]);
  }

  // ---------------------------------------------------------------- every listener, every step

  ghost predicate Kept(t: State, l: nat, lost: nat, early: bool) {
    t.fault == NoFault ==> l < |t.listeners| && ListenerInv(t, t.listeners[l], lost, early)
  }

  lemma Listened(s: State, grow: nat, l: nat)
    requires Shape(s) && s.fault == NoFault && l < |s.listeners|
    ensures var t := ListenStep(s, grow);
            && t.fault == NoFault
            && l < |t.listeners|
            && t.listeners[l] == (if Reallocates(s) && l in s.slice then Recopy(s.listeners[l]) else s.listeners[l])
  {
  }

  lemma ListenStepKeeps(s: State, grow: nat, l: nat, lost: nat, early: bool)
    requires Shape(s) && s.fault == NoFault && l < |s.listeners|
    requires ListenerInv(s, s.listeners[l], lost, early)
    ensures Kept(ListenStep(s, grow), l, lost + Loss(s, Listen(grow), l), early)
  {
    var x, t := s.listeners[l], ListenStep(s, grow);
    Listened(s, grow, l);
    if Reallocates(s) && l in s.slice {
      RecopyKeeps(s, x, lost, early);
      SameUpdate(s, t, Recopy(x), lost + |Current(x).inbox|, early);
    } else {
      SameUpdate(s, t, x, lost, early);
    }
  }

  lemma SendStepKeeps(s: State, v: Backlog, l: nat, lost: nat, early: bool)
    requires Shape(s) && s.fault == NoFault && l < |s.listeners|
    requires ListenerInv(s, s.listeners[l], lost, early)
    ensures Kept(SendStep(s, v), l, lost, early)
  {
    var t := SendStep(s, v);
    if t.fault == NoFault && !s.canceled && l in s.slice {
      PostKeeps(s, s.listeners[l], v, t, lost);
    }
  }

  lemma CancelStepKeeps(s: State, l: nat, lost: nat, early: bool)
    requires Shape(s) && s.fault == NoFault && l < |s.listeners|
    requires ListenerInv(s, s.listeners[l], lost, early)
    ensures Kept(CancelStep(s), l, lost, early)
  {
    var t := CancelStep(s);
    if t.fault == NoFault && t.canceled && !s.canceled && l in s.slice {
      CancelKeeps(s, s.listeners[l], t, lost);
    }
  }

  /** A listener's invariant looks at the update only through these four fields. */
  lemma SameUpdate(s: State, t: State, l: Listener, lost: nat, early: bool)
    requires ListenerInv(s, l, lost, early)
    requires t.size == s.size && t.canceled == s.canceled && t.values == s.values && t.remaining == s.remaining
    ensures ListenerInv(t, l, lost, early)
  {
  }

  lemma RunSendStepKeeps(s: State, m: nat, g: nat, v: Backlog, l: nat, lost: nat, early: bool)
    requires Shape(s) && s.fault == NoFault && l < |s.listeners|
    requires ListenerInv(s, s.listeners[l], lost, early)
    ensures Kept(RunSendStep(s, m, g, v), l, lost, early)
  {
    var t := RunSendStep(s, m, g, v);
    if CanRunSend(s, m, g, v) && t.fault == NoFault {
      if m == l {
        DeliverKeeps(s, s.listeners[l], g, v, lost, early);
        assert t.listeners[l] == Deliver(s.listeners[l], g, v).0;
      }
      SameUpdate(s, t, t.listeners[l], lost, early);
    }
  }

  lemma RunCancelStepKeeps(s: State, m: nat, g: nat, l: nat, lost: nat, early: bool)
    requires Shape(s) && s.fault == NoFault && l < |s.listeners|
    requires ListenerInv(s, s.listeners[l], lost, early)
    ensures Kept(RunCancelStep(s, m, g), l, lost, early)
  {
    var t := RunCancelStep(s, m, g);
    if CanRunCancel(s, m, g) && t.fault == NoFault {
      if m == l {
        DeliverCancelKeeps(s, s.listeners[l], g, lost, early);
        assert t.listeners[l] == DeliverCancel(s.listeners[l], g).0;
      }
      SameUpdate(s, t, t.listeners[l], lost, early);
    }
  }

  lemma ReceiveStepKeeps(s: State, m: nat, l: nat, lost: nat, early: bool)
    requires Shape(s) && s.fault == NoFault && l < |s.listeners|
    requires ListenerInv(s, s.listeners[l], lost, early)
    ensures Kept(ReceiveStep(s, m), l, lost, early)
  {
    var t := ReceiveStep(s, m);
    if m == l && t != s {
      TakeKeeps(s, s.listeners[l], lost, early);
    }
    SameUpdate(s, t, t.listeners[l], lost, early);
  }

  lemma TakeKeeps(s: State, l: Listener, lost: nat, early: bool)
    requires ListenerInv(s, l, lost, early) && l.ch.taken < |l.ch.sent|
    ensures ListenerInv(s, l.(ch := l.ch.(taken := l.ch.taken + 1)), lost, early)
  {
    hide InFlight;
  }

  lemma ListenerStep(s: State, a: Action, l: nat, lost: nat, early: bool)
    requires Shape(s) && s.fault == NoFault && l < |s.listeners|
    requires ListenerInv(s, s.listeners[l], lost, early)
    ensures Kept(Step(s, a), l, lost + Loss(s, a, l), early)
  {
    match a
    case Listen(grow) => ListenStepKeeps(s, grow, l, lost, early);
    case Send(v) => SendStepKeeps(s, v, l, lost, early);
    case Cancel => CancelStepKeeps(s, l, lost, early);
    case RunSend(m, g, v) => RunSendStepKeeps(s, m, g, v, l, lost, early);
    case RunCancel(m, g) => RunCancelStepKeeps(s, m, g, l, lost, early);
    case Receive(m) => ReceiveStepKeeps(s, m, l, lost, early);
  }

  lemma NewListener(s: State, grow: nat)
    requires Shape(s) && s.fault == NoFault && Step(s, Listen(grow)).fault == NoFault
    ensures var t := Step(s, Listen(grow));
            && |t.listeners| == |s.listeners| + 1
            && ListenerInv(t, t.listeners[|s.listeners|], 0, s.remaining > 0)
  {
    var l := Step(s, Listen(grow)).listeners[|s.listeners|];
    if l.copies != [] {
      assert l.copies == [NewCopy(s.remaining)];
      assert InFlight(l.copies[..0]) == multiset{};
    }
  }

  /** The invariant of a run: the history says how much each listener lost and whether it was early. */
  ghost predicate Inv(size: nat, acts: seq<Action>) {
    var s := Run(size, acts);
    s.fault == NoFault ==>
      && s.size == size
      && Shape(s)
      && forall l :: 0 <= l < |s.listeners| ==>
           ListenerInv(s, s.listeners[l], Lost(size, acts, l), JoinedEarly(size, acts, l))
  }

  lemma {:induction false} LostOnlyByMembers(size: nat, acts: seq<Action>, l: nat)
    requires Run(size, acts).fault == NoFault && |Run(size, acts).listeners| <= l
    ensures Lost(size, acts, l) == 0
  {
    if acts == [] {
    } else {
      var before, a := acts[..|acts| - 1], acts[|acts| - 1];
      assert |Run(size, before).listeners| <= |Run(size, acts).listeners|;
      LostOnlyByMembers(size, before, l);
    }
  }

  lemma History(size: nat, acts: seq<Action>, a: Action, l: nat)
    ensures Run(size, acts + [a]) == Step(Run(size, acts), a)
    ensures Lost(size, acts + [a], l) == Lost(size, acts, l) + Loss(Run(size, acts), a, l)
    ensures JoinedEarly(size, acts + [a], l)
            == if l < |Run(size, acts).listeners| then JoinedEarly(size, acts, l) else Run(size, acts).remaining > 0
  {
    assert (acts + [a])[..|acts|] == acts;
  }

  lemma MemberStep(size: nat, acts: seq<Action>, a: Action, l: nat)
    requires Inv(size, acts) && Run(size, acts + [a]).fault == NoFault
    requires l < |Run(size, acts + [a]).listeners|
    ensures var t := Run(size, acts + [a]);
            ListenerInv(t, t.listeners[l], Lost(size, acts + [a], l), JoinedEarly(size, acts + [a], l))
  {
    var s := Run(size, acts);
    History(size, acts, a, l);
    if l < |s.listeners| {
      ListenerStep(s, a, l, Lost(size, acts, l), JoinedEarly(size, acts, l));
    } else {
      LostOnlyByMembers(size, acts, l);
      OnlyListenJoins(s, a);
      NewListener(s, a.grow);
    }
  }

  lemma OnlyListenJoins(s: State, a: Action)
    ensures |s.listeners| <= |Step(s, a).listeners| <= |s.listeners| + 1
    ensures |Step(s, a).listeners| > |s.listeners| ==> a.Listen? && s.fault == NoFault
  {
  }

  lemma InvStep(size: nat, acts: seq<Action>, a: Action)
    requires Inv(size, acts)
    ensures Inv(size, acts + [a])
  {
    var t := Run(size, acts + [a]);
    assert (acts + [a])[..|acts|] == acts;
    if t.fault == NoFault {
      ShapeStep(Run(size, acts), a);
      forall l | 0 <= l < |t.listeners|
        ensures ListenerInv(t, t.listeners[l], Lost(size, acts + [a], l), JoinedEarly(size, acts + [a], l))
      {
        MemberStep(size, acts, a, l);
      }
    }
  }

  lemma {:induction false} InvHolds(size: nat, acts: seq<Action>)
    ensures Inv(size, acts)
  {
    if acts == [] {
    } else {
      InvHolds(size, acts[..|acts| - 1]);
      assert acts == acts[..|acts| - 1] + [acts[|acts| - 1]];
      InvStep(size, acts[..|acts| - 1], acts[|acts| - 1]);
    }
  }

  /** Which faults the next step of a run can raise. */
  lemma NextFault(size: nat, acts: seq<Action>, a: Action)
    requires Run(size, acts).fault == NoFault
    ensures var s := Run(size, acts);
            var f := Step(s, a).fault;
            || f == NoFault
            || (f == SendAfterDone && a.Send? && !s.canceled && |s.values| == size)
            || (f == SendOnClosed && a.RunSend? && s.canceled
                && a.l < |s.listeners| && a.v in Stranded(s.listeners[a.l]))
  {
    InvHolds(size, acts);
    var s := Run(size, acts);
    match a
    case RunSend(l, g, v) =>
      if CanRunSend(s, l, g, v) {
        DeliverKeeps(s, s.listeners[l], g, v, Lost(size, acts, l), JoinedEarly(size, acts, l));
        if g < |s.listeners[l].copies| - 1 {
          InFlightSplit(s.listeners[l].copies[..|s.listeners[l].copies| - 1], g);
        }
      }
    case RunCancel(l, g) =>
      if CanRunCancel(s, l, g) {
        DeliverCancelKeeps(s, s.listeners[l], g, Lost(size, acts, l), JoinedEarly(size, acts, l));
      }
    case _ =>
  }
}
