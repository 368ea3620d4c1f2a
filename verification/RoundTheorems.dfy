/** What a polling round keeps, over every schedule of its goroutines and its consumers. */
module RoundTheorems {
  import opened Dfsr
  import U = UpdateProtocol
  import UI = UpdateInvariant
  import UT = UpdateTheorems
  import opened RoundProtocol

  // ---------------------------------------------------------------- counting

  lemma {:induction false} CountUpdate(p: Compute -> bool, cs: seq<Compute>, i: nat, c: Compute)
    requires i < |cs|
    ensures Count(p, cs[i := c]) == Count(p, cs) - (if p(cs[i]) then 1 else 0) + (if p(c) then 1 else 0)
  {
    var last := |cs| - 1;
    if i < last {
      assert cs[i := c][..last] == cs[..last][i := c];
      CountUpdate(p, cs[..last], i, c);
    } else {
      assert cs[i := c][..last] == cs[..last];
    }
  }

  lemma {:induction false} CountPositive(p: Compute -> bool, cs: seq<Compute>, i: nat)
    requires i < |cs| && p(cs[i])
    ensures Count(p, cs) > 0
  {
    if i == |cs| - 1 {
    } else {
      CountPositive(p, cs[..|cs| - 1], i);
    }
  }

  lemma {:induction false} CountAll(p: Compute -> bool, cs: seq<Compute>)
    requires forall i :: 0 <= i < |cs| ==> p(cs[i])
    ensures Count(p, cs) == |cs|
  {
    if cs == [] {
    } else {
      CountAll(p, cs[..|cs| - 1]);
    }
  }

  lemma {:induction false} SentToUpdate(conns: seq<Backlog>, cs: seq<Compute>, j: nat, i: nat, c: Compute)
    requires |conns| == |cs| && i < |cs| && (HasSent(cs[i], j) ==> HasSent(c, j))
    ensures SentTo(conns, cs[i := c], j)
            == SentTo(conns, cs, j)
               + if HasSent(c, j) && !HasSent(cs[i], j) then multiset{conns[i]} else multiset{}
  {
    var last := |cs| - 1;
    if i < last {
      assert cs[i := c][..last] == cs[..last][i := c];
      SentToUpdate(conns[..last], cs[..last], j, i, c);
    } else {
      assert cs[i := c][..last] == cs[..last];
    }
  }

  /** Every goroutine has sent, is finished by cancellation, or is still to send: at most one value each. */
  lemma {:induction false} SentToCard(conns: seq<Backlog>, cs: seq<Compute>, j: nat)
    requires |conns| == |cs|
    ensures |SentTo(conns, cs, j)| + Count(StillOwes(j), cs) == |cs|
    ensures SentTo(conns, cs, j) <= multiset(conns)
  {
    if cs == [] {
    } else {
      var last := |cs| - 1;
      SentToCard(conns[..last], cs[..last], j);
      assert conns == conns[..last] + [conns[last]];
    }
  }

  lemma {:induction false} CountSame(p: Compute -> bool, q: Compute -> bool, cs: seq<Compute>)
    requires forall i :: 0 <= i < |cs| ==> (p(cs[i]) <==> q(cs[i]))
    ensures Count(p, cs) == Count(q, cs)
  {
    if cs == [] {
    } else {
      CountSame(p, q, cs[..|cs| - 1]);
    }
  }

  // ---------------------------------------------------------------- the invariant

  ghost predicate UpdateInv(r: Round, j: nat)
    requires j < |r.histories| && |r.conns| == |r.computes|
  {
    var u := UpdateOf(r, j);
    && u.fault == U.NoFault
    && !u.canceled
    && multiset(u.values) == SentTo(r.conns, r.computes, j)
  }

  ghost predicate Flags(flags: seq<int>, done: nat) {
    forall j :: 0 <= j < |flags| ==> flags[j] == if j < done then 0 else 1
  }

  ghost predicate MainInv(r: Round) {
    match r.main
    case Announcing(k) => k <= |r.started| && Flags(r.started, k) && Flags(r.ended, 0)
    case AwaitComputed => Flags(r.started, |r.started|) && Flags(r.ended, 0)
    case AwaitSent => Flags(r.started, |r.started|) && Flags(r.ended, 0) && r.computed == 0
    case Closing(k) => k <= |r.ended| && Flags(r.started, |r.started|) && Flags(r.ended, k) && r.sent == 0
    case Returned => Flags(r.started, |r.started|) && Flags(r.ended, |r.ended|) && r.sent == 0
  }

  ghost predicate Counters(r: Round) {
    && |r.computes| == |r.conns|
    && |r.started| == |r.ended| == |r.histories|
    && r.computed == Count(Uncomputed, r.computes)
    && r.sent == Count(Unsent, r.computes)
    && (forall i :: 0 <= i < |r.computes| && r.computes[i].Sending? ==> r.computes[i].next <= |r.histories|)
  }

  ghost predicate Inv(r: Round) {
    && !r.negativeWaitGroup
    && Counters(r)
    && MainInv(r)
    && forall j :: 0 <= j < |r.histories| ==> UpdateInv(r, j)
  }

  lemma InitInv(conns: seq<Backlog>, updates: nat)
    ensures Inv(Init(conns, updates))
  {
    var r := Init(conns, updates);
    CountAll(Uncomputed, r.computes);
    CountAll(Unsent, r.computes);
    forall j | 0 <= j < updates ensures UpdateInv(r, j) {
      NobodySent(conns, r.computes, j);
    }
  }

  lemma {:induction false} NobodySent(conns: seq<Backlog>, cs: seq<Compute>, j: nat)
    requires |conns| == |cs| && forall i :: 0 <= i < |cs| ==> !HasSent(cs[i], j)
    ensures SentTo(conns, cs, j) == multiset{}
  {
    if cs == [] {
    } else {
      NobodySent(conns[..|cs| - 1], cs[..|cs| - 1], j);
    }
  }

  /** A goroutine that has yet to send leaves room in the update, so the panic in send is unreachable. */
  lemma SendFits(r: Round, i: nat, j: nat)
    requires Inv(r) && i < |r.computes| && j < |r.histories| && !HasSent(r.computes[i], j)
    ensures |UpdateOf(r, j).values| < |r.conns|
  {
    assert UpdateInv(r, j);
    SentToCard(r.conns, r.computes, j);
    CountPositive(StillOwes(j), r.computes, i);
    assert |multiset(UpdateOf(r, j).values)| == |UpdateOf(r, j).values|;
  }

  lemma ComputeMoves(r: Round, t: Round, i: nat, c: Compute)
    requires Inv(r) && i < |r.computes|
    requires t.conns == r.conns && t.computes == r.computes[i := c] && t.histories == r.histories
    requires forall j :: 0 <= j < |r.histories| ==> (HasSent(r.computes[i], j) <==> HasSent(c, j))
    ensures forall j :: 0 <= j < |t.histories| ==> UpdateInv(t, j)
    ensures Count(Uncomputed, t.computes)
            == Count(Uncomputed, r.computes)
               - (if Uncomputed(r.computes[i]) then 1 else 0) + (if Uncomputed(c) then 1 else 0)
    ensures Count(Unsent, t.computes)
            == Count(Unsent, r.computes)
               - (if Unsent(r.computes[i]) then 1 else 0) + (if Unsent(c) then 1 else 0)
  {
    CountUpdate(Uncomputed, r.computes, i, c);
    CountUpdate(Unsent, r.computes, i, c);
    forall j | 0 <= j < |t.histories| ensures UpdateInv(t, j) {
      assert UpdateInv(r, j);
      SentToUpdate(r.conns, r.computes, j, i, c);
    }
  }

  lemma CheckKeeps(r: Round, i: nat)
    requires Inv(r)
    ensures Inv(CheckStep(r, i))
  {
    if i < |r.computes| && r.computes[i] == Start {
      CountPositive(Uncomputed, r.computes, i);
      CountPositive(Unsent, r.computes, i);
      var t := CheckStep(r, i);
      ComputeMoves(r, t, i, t.computes[i]);
    }
  }

  lemma QueryReturnsKeeps(r: Round, i: nat)
    requires Inv(r)
    ensures Inv(QueryReturnsStep(r, i))
  {
    if i < |r.computes| && r.computes[i] == Querying {
      CountPositive(Uncomputed, r.computes, i);
      var t := QueryReturnsStep(r, i);
      CountPositive(Unsent, r.computes, i);
      ComputeMoves(r, t, i, t.computes[i]);
    }
  }

  /** The send of a goroutine that still owes update k adds its value and nothing else. */
  lemma SendArrives(r: Round, i: nat, k: nat)
    requires Inv(r) && i < |r.computes| && k < |r.histories| && !HasSent(r.computes[i], k)
    ensures var u := U.Run(|r.conns|, r.histories[k] + [U.Send(r.conns[i])]);
            && u.fault == U.NoFault && !u.canceled
            && u.values == UpdateOf(r, k).values + [r.conns[i]]
  {
    assert UpdateInv(r, k);
    SendFits(r, i, k);
    var a := U.Send(r.conns[i]);
    UI.History(|r.conns|, r.histories[k], a, 0);
    UI.InvHolds(|r.conns|, r.histories[k]);
    UT.Accounting(|r.conns|, r.histories[k]);
    UI.NextFault(|r.conns|, r.histories[k], a);
  }

  lemma SendKeepsUpdate(r: Round, i: nat, k: nat, j: nat)
    requires Inv(r) && i < |r.computes| && r.computes[i] == Sending(k) && k < |r.histories| && j < |r.histories|
    ensures UpdateInv(SendNextStep(r, i), j)
  {
    assert UpdateInv(r, j);
    SentToUpdate(r.conns, r.computes, j, i, Sending(k + 1));
    if j == k {
      SendArrives(r, i, k);
      var u := UpdateOf(r, k);
      assert multiset(u.values + [r.conns[i]]) == multiset(u.values) + multiset{r.conns[i]};
    }
  }

  lemma SendKeeps(r: Round, i: nat, k: nat)
    requires Inv(r) && i < |r.computes| && r.computes[i] == Sending(k) && k < |r.histories|
    ensures Inv(SendNextStep(r, i))
  {
    CountUpdate(Uncomputed, r.computes, i, Sending(k + 1));
    CountUpdate(Unsent, r.computes, i, Sending(k + 1));
    forall j | 0 <= j < |r.histories| ensures UpdateInv(SendNextStep(r, i), j) {
      SendKeepsUpdate(r, i, k, j);
    }
  }

  lemma SendNextKeeps(r: Round, i: nat)
    requires Inv(r)
    ensures Inv(SendNextStep(r, i))
  {
    if i < |r.computes| && r.computes[i].Sending? {
      var k := r.computes[i].next;
      if k < |r.histories| {
        SendKeeps(r, i, k);
      } else {
        CountPositive(Unsent, r.computes, i);
        ComputeMoves(r, SendNextStep(r, i), i, Finished(false));
      }
    }
  }

  lemma ConsumeKeeps(r: Round, j: nat, a: U.Action)
    requires Inv(r)
    ensures Inv(ConsumeStep(r, j, a))
  {
    if j < |r.histories| && !a.Send? && !a.Cancel? {
      var t := ConsumeStep(r, j, a);
      forall k | 0 <= k < |t.histories| ensures UpdateInv(t, k) {
        assert UpdateInv(r, k);
        if k == j {
          UI.History(|r.conns|, r.histories[j], a, 0);
          UI.NextFault(|r.conns|, r.histories[j], a);
          ConsumersKeepValues(UpdateOf(r, j), a);
        }
      }
    }
  }

  lemma ConsumersKeepValues(s: U.State, a: U.Action)
    requires !a.Send? && !a.Cancel?
    ensures U.Step(s, a).values == s.values && U.Step(s, a).canceled == s.canceled
    ensures U.Step(s, a).received == s.received && U.Step(s, a).remaining == s.remaining
  {
  }

  lemma PollKeepsMain(r: Round)
    requires !r.negativeWaitGroup && Counters(r) && MainInv(r)
    ensures !PollStepOf(r).negativeWaitGroup && MainInv(PollStepOf(r))
  {
  }

  lemma PollKeeps(r: Round)
    requires Inv(r)
    ensures Inv(PollStepOf(r))
  {
    PollKeepsMain(r);
    var t := PollStepOf(r);
    assert t.computes == r.computes && t.histories == r.histories && t.conns == r.conns;
    forall j | 0 <= j < |t.histories| ensures UpdateInv(t, j) {
      assert UpdateInv(r, j);
    }
  }

  lemma StepKeeps(r: Round, e: Event)
    requires Inv(r)
    ensures Inv(Step(r, e))
  {
    match e
    case CancelContext =>
      forall j | 0 <= j < |r.histories| ensures UpdateInv(Step(r, e), j) {
        assert UpdateInv(r, j);
      }
    case Check(i) => CheckKeeps(r, i);
    case QueryReturns(i) => QueryReturnsKeeps(r, i);
    case SendNext(i) => SendNextKeeps(r, i);
    case PollStep => PollKeeps(r);
    case Consume(j, a) => ConsumeKeeps(r, j, a);
  }

  lemma {:induction false} InvHolds(conns: seq<Backlog>, updates: nat, events: seq<Event>)
    ensures Inv(Run(conns, updates, events))
    ensures Run(conns, updates, events).conns == conns
    ensures |Run(conns, updates, events).histories| == updates
  {
    if events == [] {
      InitInv(conns, updates);
    } else {
      InvHolds(conns, updates, events[..|events| - 1]);
      StepKeeps(Run(conns, updates, events[..|events| - 1]), events[|events| - 1]);
    }
  }

  // ---------------------------------------------------------------- the round as a whole

  /** In no schedule does a WaitGroup go negative or an update panic, whatever the consumers do. */
  lemma RoundIsSafe(conns: seq<Backlog>, updates: nat, events: seq<Event>, j: nat)
    requires j < updates
    ensures var r := Run(conns, updates, events);
            && !r.negativeWaitGroup && r.computed >= 0 && r.sent >= 0
            && j < |r.started| == |r.ended| && r.started[j] >= 0 && r.ended[j] >= 0
            && j < |r.histories| && UpdateOf(r, j).fault == U.NoFault
            && |UpdateOf(r, j).values| <= |conns|
            && multiset(UpdateOf(r, j).values) <= multiset(conns)
  {
    InvHolds(conns, updates, events);
    var r := Run(conns, updates, events);
    assert UpdateInv(r, j);
    SentToCard(r.conns, r.computes, j);
    UT.Accounting(|conns|, r.histories[j]);
  }

  lemma {:induction false} NoneUnsent(cs: seq<Compute>)
    requires Count(Unsent, cs) == 0
    ensures forall i :: 0 <= i < |cs| ==> cs[i].Finished?
  {
    if cs == [] {
    } else {
      NoneUnsent(cs[..|cs| - 1]);
    }
  }

  lemma {:induction false} AllSent(conns: seq<Backlog>, cs: seq<Compute>, j: nat)
    requires |conns| == |cs| && forall i :: 0 <= i < |cs| ==> HasSent(cs[i], j)
    ensures SentTo(conns, cs, j) == multiset(conns)
  {
    if cs == [] {
    } else {
      var last := |cs| - 1;
      AllSent(conns[..last], cs[..last], j);
      assert conns == conns[..last] + [conns[last]];
    }
  }

  lemma {:induction false} NoneSawCancel(cs: seq<Compute>)
    requires Count(SawCancel, cs) == 0
    ensures forall i :: 0 <= i < |cs| ==> !SawCancel(cs[i])
  {
    if cs == [] {
    } else {
      NoneSawCancel(cs[..|cs| - 1]);
    }
  }

  /** When Poll calls setEnd, what an update still waits for is exactly what the canceled computations
      withheld; without any, its values are a permutation of the round's connections. */
  lemma RoundEnds(conns: seq<Backlog>, updates: nat, events: seq<Event>, j: nat)
    requires j < updates
    requires Run(conns, updates, events).main.Closing? || Run(conns, updates, events).main.Returned?
    ensures var r := Run(conns, updates, events);
            && |r.histories| == updates
            && UpdateOf(r, j).received == UpdateOf(r, j).remaining == Count(SawCancel, r.computes)
            && (Count(SawCancel, r.computes) == 0 ==> multiset(UpdateOf(r, j).values) == multiset(conns))
  {
    InvHolds(conns, updates, events);
    var r := Run(conns, updates, events);
    assert UpdateInv(r, j);
    NoneUnsent(r.computes);
    SentToCard(r.conns, r.computes, j);
    CountSame(StillOwes(j), SawCancel, r.computes);
    UT.Accounting(|conns|, r.histories[j]);
    assert |multiset(UpdateOf(r, j).values)| == |UpdateOf(r, j).values|;
    if Count(SawCancel, r.computes) == 0 {
      NoneSawCancel(r.computes);
      AllSent(r.conns, r.computes, j);
    }
  }

  lemma {:induction false} Settled(conns: seq<Backlog>, updates: nat, events: seq<Event>, more: seq<Event>)
    requires Run(conns, updates, events).main.Returned?
    ensures var r, t := Run(conns, updates, events), Run(conns, updates, events + more);
            t.main.Returned? && t.computes == r.computes
  {
    if more == [] {
      assert events + more == events;
    } else {
      var before := events + more[..|more| - 1];
      Settled(conns, updates, events, more[..|more| - 1]);
      assert (events + more)[..|events + more| - 1] == before;
      InvHolds(conns, updates, before);
      NoneUnsent(Run(conns, updates, before).computes);
    }
  }

  /** The documentation of Update.Values says that it blocks until the update has finished.  Once Poll has
      returned, Values can ever return if and only if no computation saw the context canceled: Poll never
      calls Update.cancel, so a canceled round leaves its waiters waiting. */
  lemma ValuesReturnIffNothingCanceled(conns: seq<Backlog>, updates: nat, events: seq<Event>, j: nat)
    requires j < updates && Run(conns, updates, events).main.Returned?
    ensures (exists more :: var t := Run(conns, updates, events + more);
                            j < |t.histories| && UpdateOf(t, j).received == 0)
            <==> Count(SawCancel, Run(conns, updates, events).computes) == 0
  {
    forall more
      ensures var t := Run(conns, updates, events + more);
              && j < |t.histories|
              && UpdateOf(t, j).received == Count(SawCancel, Run(conns, updates, events).computes)
    {
      Settled(conns, updates, events, more);
      RoundEnds(conns, updates, events + more, j);
    }
    assert events + [] == events;
  }

  lemma Unroll(conns: seq<Backlog>, updates: nat, events: seq<Event>, e: Event)
    ensures Run(conns, updates, events + [e]) == Step(Run(conns, updates, events), e)
  {
    assert (events + [e])[..|events|] == events;
  }

  lemma {:induction false} PollSteps(conns: seq<Backlog>, updates: nat, events: seq<Event>, n: nat)
    returns (more: seq<Event>)
    ensures Run(conns, updates, more) == Polled(Run(conns, updates, events), n)
  {
    if n == 0 {
      more := events;
    } else {
      more := PollSteps(conns, updates, events, n - 1);
      Unroll(conns, updates, more, PollStep);
      more := more + [PollStep];
    }
  }

  function Polled(r: Round, n: nat): Round {
    if n == 0 then r else Step(Polled(r, n - 1), PollStep)
  }

  /** A round of one connection whose context is done before it asks: Poll returns, Values never will. */
  lemma CanceledRoundKeepsWaiting(b: Backlog) returns (events: seq<Event>)
    ensures Run([b], 1, events).main.Returned? && Count(SawCancel, Run([b], 1, events).computes) == 1
    ensures forall more :: var t := Run([b], 1, events + more); |t.histories| == 1 && UpdateOf(t, 0).received == 1
  {
    assert Run([b], 1, []) == Init([b], 1);
    Unroll([b], 1, [], CancelContext);
    events := [] + [CancelContext];
    Unroll([b], 1, events, Check(0));
    events := events + [Check(0)];
    CanceledRoundReturns(b, Run([b], 1, events));
    events := PollSteps([b], 1, events, 6);
    hide Run;
    forall more ensures var t := Run([b], 1, events + more); |t.histories| == 1 && UpdateOf(t, 0).received == 1 {
      Settled([b], 1, events, more);
      RoundEnds([b], 1, events + more, 0);
    }
  }

  lemma CanceledRoundReturns(b: Backlog, r: Round)
    requires r == Step(Step(Init([b], 1), CancelContext), Check(0))
    ensures Polled(r, 6).main.Returned? && Count(SawCancel, Polled(r, 6).computes) == 1
  {
    assert r.computes == [Finished(true)] && r.computed == 0 && r.sent == 0;
    assert r.started == [1] && r.ended == [1] && r.main == Announcing(0);
    assert Polled(r, 1) == r.(started := [0], main := Announcing(1));
    assert Polled(r, 2) == r.(started := [0], main := AwaitComputed);
    assert Polled(r, 4) == r.(started := [0], main := Closing(0));
    assert Polled(r, 5) == r.(started := [0], ended := [0], main := Closing(1));
    assert Polled(r, 6) == r.(started := [0], ended := [0], main := Returned);
    assert r.computes[..0] == [];
    assert Count(SawCancel, []) == 0;
  }

  /** A listener that joined in time and was not cut off ends with the whole round on a closed channel. */
  lemma RoundReachesListener(conns: seq<Backlog>, updates: nat, events: seq<Event>, j: nat, l: nat)
    requires j < updates && Run(conns, updates, events).main.Returned?
    requires Count(SawCancel, Run(conns, updates, events).computes) == 0
    requires j < |Run(conns, updates, events).histories|
    requires l < |UpdateOf(Run(conns, updates, events), j).listeners|
    requires U.InFlight(UpdateOf(Run(conns, updates, events), j).listeners[l].copies) == multiset{}
    ensures var r := Run(conns, updates, events);
            var x := UpdateOf(r, j).listeners[l];
            && multiset(x.ch.sent) == multiset(conns)
            && (x.ch.closed <==>
                  conns == [] || (U.JoinedEarly(|conns|, r.histories[j], l) && U.Lost(|conns|, r.histories[j], l) == 0))
  {
    InvHolds(conns, updates, events);
    var r := Run(conns, updates, events);
    assert UpdateInv(r, j);
    RoundEnds(conns, updates, events, j);
    UT.ExactlyOnce(|conns|, r.histories[j], l);
    UT.ClosedExactlyWhenComplete(|conns|, r.histories[j], l);
    var x := UpdateOf(r, j).listeners[l];
    assert |multiset(x.ch.sent)| == |multiset(conns)|;
  }
}
