/** What the consumer of a channel of monitor/update.go gets, and in which order. */
module UpdateConsumer {
  import opened Dfsr
  import opened UpdateProtocol
  import opened UpdateInvariant
  import opened UpdateTheorems

  // ---------------------------------------------------------------- the order of the values

  function SentValues(acts: seq<Action>): seq<Backlog> {
    if acts == [] then []
    else
      var last := acts[|acts| - 1];
      SentValues(acts[..|acts| - 1]) + if last.Send? then [last.v] else []
  }

  lemma PrefixGrows(a: seq<Backlog>, b: seq<Backlog>, c: seq<Backlog>)
    requires a <= b
    ensures a <= b + c
  {
  }

  lemma ValuesStep(s: State, a: Action)
    requires s.fault == NoFault
    ensures var t := Step(s, a);
            && t.values == (if a.Send? && !s.canceled && t.fault == NoFault then s.values + [a.v] else s.values)
            && (s.canceled ==> t.canceled)
            && (t.fault != NoFault ==> t.canceled == s.canceled)
  {
  }

  /** Values are kept in the order of the sends: all of them until a cancel, and none after it. */
  lemma {:induction false} ValuesInOrder(size: nat, acts: seq<Action>)
    ensures Run(size, acts).values <= SentValues(acts)
    ensures Run(size, acts).fault == NoFault && !Run(size, acts).canceled ==> Run(size, acts).values == SentValues(acts)
  {
    hide Step, Run;
    if acts == [] {
      assert Run(size, []) == Init(size) by { EmptyRun(size); }
    } else {
      var before, a := acts[..|acts| - 1], acts[|acts| - 1];
      ValuesInOrder(size, before);
      assert acts == before + [a];
      History(size, before, a, 0);
      var s := Run(size, before);
      if s.fault == NoFault {
        ValuesStep(s, a);
        if a.Send? && s.canceled {
          PrefixGrows(s.values, SentValues(before), [a.v]);
        }
      } else {
        Frozen(s, a);
      }
    }
  }

  lemma EmptyRun(size: nat)
    ensures Run(size, []) == Init(size)
  {
  }

  lemma Frozen(s: State, a: Action)
    requires s.fault != NoFault
    ensures Step(s, a) == s
  {
  }

  // ---------------------------------------------------------------- one channel

  /** What has been sent on a channel stays, in its order. */
  lemma ChannelStep(s: State, a: Action, l: nat)
    requires l < |s.listeners|
    ensures l < |Step(s, a).listeners|
    ensures var x, y := s.listeners[l].ch, Step(s, a).listeners[l].ch;
            && x.sent <= y.sent
            && y.taken == x.taken + (if s.fault == NoFault && a == Receive(l) && x.taken < |x.sent| then 1 else 0)
            && (x.closed ==> y.closed && y.sent == x.sent)
  {
    if s.fault == NoFault && a.RunSend? && CanRunSend(s, a.l, a.copy, a.v) {
      DeliverChannel(s.listeners[a.l], a.copy, a.v);
    }
    hide Deliver;
  }

  lemma DeliverChannel(x: Listener, g: nat, v: Backlog)
    requires g < |x.copies|
    ensures var (y, fault) := Deliver(x, g, v);
            && y.ch.taken == x.ch.taken
            && (y.ch.sent == x.ch.sent || y.ch.sent == x.ch.sent + [v])
            && (x.ch.closed ==> y.ch.closed && y.ch.sent == x.ch.sent)
  {
  }

  lemma {:induction false} SentOnlyGrows(size: nat, acts: seq<Action>, more: seq<Action>, l: nat)
    requires l < |Run(size, acts).listeners|
    ensures l < |Run(size, acts + more).listeners|
    ensures Run(size, acts).listeners[l].ch.sent <= Run(size, acts + more).listeners[l].ch.sent
  {
    hide Step, Run;
    if more == [] {
      assert acts + more == acts;
    } else {
      var before, a := acts + more[..|more| - 1], more[|more| - 1];
      SentOnlyGrows(size, acts, more[..|more| - 1], l);
      assert acts + more == before + [a];
      History(size, before, a, l);
      ChannelStep(Run(size, before), a, l);
    }
  }

  /** The values that the receives on channel `l` have returned, in order. */
  function Received(size: nat, acts: seq<Action>, l: nat): seq<Backlog> {
    if acts == [] then []
    else
      var before, a := acts[..|acts| - 1], acts[|acts| - 1];
      var s := Run(size, before);
      Received(size, before, l)
      + if s.fault == NoFault && a == Receive(l) && l < |s.listeners|
           && s.listeners[l].ch.taken < |s.listeners[l].ch.sent|
        then [s.listeners[l].ch.sent[s.listeners[l].ch.taken]] else []
  }

  lemma ReceivedNext(size: nat, acts: seq<Action>, a: Action, l: nat)
    ensures Received(size, acts + [a], l) == Received(size, acts, l) +
              var s := Run(size, acts);
              if s.fault == NoFault && a == Receive(l) && l < |s.listeners|
                 && s.listeners[l].ch.taken < |s.listeners[l].ch.sent|
              then [s.listeners[l].ch.sent[s.listeners[l].ch.taken]] else []
  {
    assert (acts + [a])[..|acts|] == acts;
  }

  lemma NewChannel(s: State, a: Action, l: nat)
    requires l == |s.listeners| < |Step(s, a).listeners|
    ensures Step(s, a).listeners[l].ch.taken == 0
  {
  }

  /** The consumer gets what was sent, each value once, in the order in which it was sent. */
  lemma {:induction false} TakenInOrder(size: nat, acts: seq<Action>, l: nat)
    ensures l >= |Run(size, acts).listeners| ==> Received(size, acts, l) == []
    ensures l < |Run(size, acts).listeners| ==>
              var ch := Run(size, acts).listeners[l].ch;
              ch.taken <= |ch.sent| && Received(size, acts, l) == ch.sent[..ch.taken]
  {
    hide Step, Run;
    if acts == [] {
      EmptyRun(size);
    } else {
      var before, a := acts[..|acts| - 1], acts[|acts| - 1];
      TakenInOrder(size, before, l);
      assert acts == before + [a];
      History(size, before, a, l);
      ReceivedNext(size, before, a, l);
      hide Received;
      var s := Run(size, before);
      OnlyListenJoins(s, a);
      if l < |s.listeners| {
        ChannelStep(s, a, l);
        TakeOne(s.listeners[l].ch, Run(size, acts).listeners[l].ch);
      } else if l < |Run(size, acts).listeners| {
        NewChannel(s, a, l);
      }
    }
  }

  lemma TakeOne(x: Channel, y: Channel)
    requires x.sent <= y.sent && x.taken <= |x.sent|
    ensures y.sent[..x.taken] == x.sent[..x.taken]
    ensures x.taken < |x.sent| ==> y.sent[..x.taken + 1] == x.sent[..x.taken] + [x.sent[x.taken]]
  {
  }

  /** Whatever happens, the consumer gets no value that was not sent, and none more often than it was. */
  lemma ReceivedWithinValues(size: nat, acts: seq<Action>, l: nat)
    requires Run(size, acts).fault == NoFault && l < |Run(size, acts).listeners|
    ensures multiset(Received(size, acts, l)) <= multiset(Run(size, acts).values)
    ensures |Received(size, acts, l)| <= size
  {
    TakenInOrder(size, acts, l);
    ExactlyOnce(size, acts, l);
    hide Run, Received;
    var ch := Run(size, acts).listeners[l].ch;
    assert ch.sent == ch.sent[..ch.taken] + ch.sent[ch.taken..];
  }

  /** `for backlog := range update.Listen()`: a consumer that has come to the end of a closed channel of an
      update that was not canceled has got every value of the update exactly once. */
  lemma RangeGetsEveryValue(size: nat, acts: seq<Action>, l: nat)
    requires Run(size, acts).fault == NoFault && l < |Run(size, acts).listeners|
    requires Run(size, acts).listeners[l].ch.closed && !Run(size, acts).canceled
    requires Run(size, acts).listeners[l].ch.taken == |Run(size, acts).listeners[l].ch.sent|
    ensures multiset(Received(size, acts, l)) == multiset(Run(size, acts).values) == multiset(SentValues(acts))
    ensures |Received(size, acts, l)| == size
  {
    TakenInOrder(size, acts, l);
    ExactlyOnce(size, acts, l);
    ClosedExactlyWhenComplete(size, acts, l);
    Accounting(size, acts);
    ValuesInOrder(size, acts);
    hide Run, Received, SentValues;
    var s := Run(size, acts);
    var ch := s.listeners[l].ch;
    assert ch.sent[..ch.taken] == ch.sent;
    AllOfIt(multiset(ch.sent), InFlight(s.listeners[l].copies), multiset(s.values));
  }

  lemma AllOfIt(sent: multiset<Backlog>, rest: multiset<Backlog>, values: multiset<Backlog>)
    requires sent + rest == values && |sent| >= |values|
    ensures sent == values
  {
    assert |values| == |sent| + |rest|;
  }

  // ---------------------------------------------------------------- every channel operation is legal

  /** A delivery that is waiting finds room on the channel, and finds it open unless the update is canceled. */
  lemma SendFindsRoom(size: nat, acts: seq<Action>, l: nat, g: nat, v: Backlog)
    requires Run(size, acts).fault == NoFault && CanRunSend(Run(size, acts), l, g, v)
    ensures var s := Run(size, acts);
            var ch := s.listeners[l].ch;
            |ch.sent| < ch.taken + ch.cap && (ch.closed ==> s.canceled)
  {
    InvHolds(size, acts);
    RoomToSend(Run(size, acts), Run(size, acts).listeners[l], g, v, Lost(size, acts, l), JoinedEarly(size, acts, l));
  }

  /** A cancel that is waiting on a listener which is still open finds the channel open, so none is closed twice. */
  lemma CancelFindsOpen(size: nat, acts: seq<Action>, l: nat, g: nat)
    requires Run(size, acts).fault == NoFault && CanRunCancel(Run(size, acts), l, g)
    requires Run(size, acts).listeners[l].copies[g].open
    ensures !Run(size, acts).listeners[l].ch.closed
  {
    InvHolds(size, acts);
    assert g == |Run(size, acts).listeners[l].copies| - 1 by {
      assert g < |Run(size, acts).listeners[l].copies| - 1 ==>
               LeftBehind(Run(size, acts).listeners[l].copies[g], JoinedEarly(size, acts, l));
    }
  }

  /** The last send of an update drops its listeners, and a cancel does. */
  lemma ListenersAreDropped(size: nat, acts: seq<Action>, v: Backlog)
    requires Run(size, acts).fault == NoFault && !Run(size, acts).canceled
    ensures Run(size, acts).remaining == 1 ==>
              var t := Run(size, acts + [Send(v)]); t.slice == [] && t.capacity == 0
    ensures Run(size, acts).remaining > 0 ==>
              var t := Run(size, acts + [Cancel]); t.slice == [] && t.capacity == 0
  {
    InvHolds(size, acts);
    History(size, acts, Send(v), 0);
    History(size, acts, Cancel, 0);
    hide Run;
  }
}
