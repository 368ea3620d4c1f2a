/** Which computations of a polling round see the cancellation, and that a round runs to its end. */
module RoundProgress {
  import opened Dfsr
  import U = UpdateProtocol
  import UI = UpdateInvariant
  import opened RoundProtocol
  import opened RoundTheorems

  // ---------------------------------------------------------------- who sees the cancellation

  /** The first look that compute i took at the context came after the context was canceled. */
  ghost predicate LookedTooLate(events: seq<Event>, i: nat) {
    exists j :: 0 <= j < |events| && events[j] == Check(i) && Check(i) !in events[..j] && CancelContext in events[..j]
  }

  lemma LookNext(events: seq<Event>, e: Event, i: nat)
    ensures LookedTooLate(events + [e], i) <==>
              LookedTooLate(events, i) || (e == Check(i) && Check(i) !in events && CancelContext in events)
  {
    var all := events + [e];
    assert forall j :: 0 <= j < |events| ==> all[j] == events[j] && all[..j] == events[..j];
    assert all[|events|] == e && all[..|events|] == events;
  }

  /** Where compute i stands, by its first look. */
  ghost predicate LookInv(r: Round, events: seq<Event>, i: nat) {
    && (r.contextDone <==> CancelContext in events)
    && (i < |r.computes| ==>
          && (r.computes[i] == Start <==> Check(i) !in events)
          && (SawCancel(r.computes[i]) <==> LookedTooLate(events, i)))
  }

  lemma LookStep(r: Round, events: seq<Event>, e: Event, i: nat)
    requires Inv(r) && LookInv(r, events, i) && (LookedTooLate(events, i) ==> Check(i) in events)
    ensures LookInv(Step(r, e), events + [e], i)
  {
    LookNext(events, e, i);
    hide LookedTooLate, UpdateInv, Counters, MainInv;
    var t := Step(r, e);
    match e
    case Check(k) => CheckKeeps(r, k);
    case QueryReturns(k) => QueryReturnsKeeps(r, k);
    case SendNext(k) => SendNextKeeps(r, k);
    case PollStep => PollKeeps(r);
    case _ =>
  }

  lemma {:induction false} Looks(conns: seq<Backlog>, updates: nat, events: seq<Event>, i: nat)
    ensures LookInv(Run(conns, updates, events), events, i)
  {
    hide Step, LookInv, Inv;
    if events == [] {
      NobodyLooked(conns, updates, i);
    } else {
      var before, e := events[..|events| - 1], events[|events| - 1];
      Looks(conns, updates, before, i);
      InvHolds(conns, updates, before);
      assert events == before + [e];
      Unroll(conns, updates, before, e);
      LateLookIsALook(before, i);
      LookStep(Run(conns, updates, before), before, e, i);
    }
  }

  lemma NobodyLooked(conns: seq<Backlog>, updates: nat, i: nat)
    ensures LookInv(Run(conns, updates, []), [], i)
  {
  }

  lemma LateLookIsALook(events: seq<Event>, i: nat)
    ensures LookedTooLate(events, i) ==> Check(i) in events
  {
  }

  /** compute i gives up as canceled exactly if the context was canceled before it first looked. */
  lemma SawCancelExactly(conns: seq<Backlog>, updates: nat, events: seq<Event>, i: nat)
    requires i < |conns|
    ensures |Run(conns, updates, events).computes| == |conns|
    ensures SawCancel(Run(conns, updates, events).computes[i]) <==> LookedTooLate(events, i)
  {
    InvHolds(conns, updates, events);
    Looks(conns, updates, events, i);
  }

  lemma {:induction false} CountNone(cs: seq<Compute>)
    requires forall i :: 0 <= i < |cs| ==> !SawCancel(cs[i])
    ensures Count(SawCancel, cs) == 0
  {
    if cs == [] {
    } else {
      CountNone(cs[..|cs| - 1]);
    }
  }

  lemma NobodySawCancel(conns: seq<Backlog>, updates: nat, events: seq<Event>)
    requires CancelContext !in events
    ensures Count(SawCancel, Run(conns, updates, events).computes) == 0
  {
    InvHolds(conns, updates, events);
    hide Run, Inv;
    var cs := Run(conns, updates, events).computes;
    assert |cs| == |conns| by { SizeOfRound(conns, updates, events); }
    forall i | 0 <= i < |cs| ensures !SawCancel(cs[i]) {
      SawCancelExactly(conns, updates, events, i);
    }
    CountNone(cs);
  }

  lemma SizeOfRound(conns: seq<Backlog>, updates: nat, events: seq<Event>)
    ensures |Run(conns, updates, events).computes| == |conns|
  {
    InvHolds(conns, updates, events);
  }

  /** A round whose context is never canceled ends with all of its connections in every update, once each, and
      lets Values return. */
  lemma LiveRoundIsComplete(conns: seq<Backlog>, updates: nat, events: seq<Event>, j: nat)
    requires CancelContext !in events && j < updates
    requires Run(conns, updates, events).main.Closing? || Run(conns, updates, events).main.Returned?
    ensures j < |Run(conns, updates, events).histories|
    ensures var u := UpdateOf(Run(conns, updates, events), j);
            multiset(u.values) == multiset(conns) && u.received == 0
  {
    hide Run;
    NobodySawCancel(conns, updates, events);
    RoundEnds(conns, updates, events, j);
  }

  // ---------------------------------------------------------------- a round can always end

  function Weight(c: Compute, updates: nat): nat {
    match c
    case Start => updates + 3
    case Querying => updates + 2
    case Sending(k) => if k <= updates then updates + 1 - k else 0
    case Finished(_) => 0
  }

  function Weights(cs: seq<Compute>, updates: nat): nat {
    if cs == [] then 0 else Weights(cs[..|cs| - 1], updates) + Weight(cs[|cs| - 1], updates)
  }

  function MainWeight(m: Main, updates: nat): nat {
    match m
    case Announcing(j) => if j <= updates then 2 * updates + 5 - j else 0
    case AwaitComputed => updates + 4
    case AwaitSent => updates + 3
    case Closing(j) => if j <= updates then updates + 2 - j else 0
    case Returned => 0
  }

  lemma {:induction false} WeightsUpdate(cs: seq<Compute>, updates: nat, i: nat, c: Compute)
    requires i < |cs|
    ensures Weights(cs[i := c], updates) == Weights(cs, updates) - Weight(cs[i], updates) + Weight(c, updates)
    ensures Weights(cs, updates) >= Weight(cs[i], updates)
  {
    var last := |cs| - 1;
    if i == last {
      assert cs[i := c][..last] == cs[..last];
    } else {
      assert cs[i := c][..last] == cs[..last][i := c];
      WeightsUpdate(cs[..last], updates, i, c);
    }
  }

  /** What is left to do. */
  function Work(r: Round): nat {
    Weights(r.computes, |r.histories|) + MainWeight(r.main, |r.histories|)
  }

  lemma ComputeWorks(r: Round, i: nat, e: Event)
    requires Inv(r) && i < |r.computes| && !r.computes[i].Finished?
    requires e == if r.computes[i] == Start then Check(i)
                  else if r.computes[i] == Querying then QueryReturns(i) else SendNext(i)
    ensures Work(Step(r, e)) < Work(r)
  {
    var t := Step(r, e);
    if r.computes[i] != Start {
      CountPositive(if r.computes[i] == Querying then Uncomputed else Unsent, r.computes, i);
    } else {
      CountPositive(Uncomputed, r.computes, i);
      CountPositive(Unsent, r.computes, i);
    }
    assert t.computes == r.computes[i := t.computes[i]];
    WeightsUpdate(r.computes, |r.histories|, i, t.computes[i]);
    hide UpdateInv;
  }

  lemma MainWorks(r: Round)
    requires Inv(r) && !r.main.Returned? && forall i :: 0 <= i < |r.computes| ==> r.computes[i].Finished?
    ensures Work(Step(r, PollStep)) < Work(r)
  {
    AllDone(r.computes);
    hide UpdateInv;
  }

  lemma {:induction false} AllDone(cs: seq<Compute>)
    requires forall i :: 0 <= i < |cs| ==> cs[i].Finished?
    ensures Count(Uncomputed, cs) == 0 && Count(Unsent, cs) == 0
  {
    if cs == [] {
    } else {
      AllDone(cs[..|cs| - 1]);
    }
  }

  /** From every state of every round, as long as queries return, Poll can return; no more need happen than
      what its own goroutines do. */
  lemma {:induction false} RoundCanEnd(conns: seq<Backlog>, updates: nat, events: seq<Event>) returns (more: seq<Event>)
    ensures Run(conns, updates, events + more).main.Returned?
    ensures forall k :: 0 <= k < |more| ==> !more[k].CancelContext? && !more[k].Consume?
    decreases Work(Run(conns, updates, events))
  {
    InvHolds(conns, updates, events);
    var r := Run(conns, updates, events);
    if r.main.Returned? {
      more := [];
      assert events + [] == events;
    } else {
      hide Run, Step, Inv, Work;
      var e := NextEvent(r);
      Unroll(conns, updates, events, e);
      var rest := RoundCanEnd(conns, updates, events + [e]);
      more := [e] + rest;
      assert events + more == events + [e] + rest;
    }
  }

  lemma NextEvent(r: Round) returns (e: Event)
    requires Inv(r) && !r.main.Returned?
    ensures Work(Step(r, e)) < Work(r) && !e.CancelContext? && !e.Consume?
  {
    if i :| 0 <= i < |r.computes| && !r.computes[i].Finished? {
      e := if r.computes[i] == Start then Check(i)
           else if r.computes[i] == Querying then QueryReturns(i) else SendNext(i);
      hide Step, Work;
      ComputeWorks(r, i, e);
    } else {
      e := PollStep;
      hide Step, Work;
      MainWorks(r);
    }
  }

  // ---------------------------------------------------------------- what reaches an update

  /** Listening to an update, receiving from it and the deliveries on it are steps of that update alone. */
  lemma ConsumerActsOnUpdate(conns: seq<Backlog>, updates: nat, events: seq<Event>, j: nat, a: U.Action, k: nat)
    requires j < updates && k < updates && !a.Send? && !a.Cancel?
    ensures var r, t := Run(conns, updates, events), Run(conns, updates, events + [Consume(j, a)]);
            && j < |r.histories| && k < |r.histories| && |t.histories| == |r.histories|
            && |t.conns| == |r.conns|
            && UpdateOf(t, k) == if k == j then U.Step(UpdateOf(r, k), a) else UpdateOf(r, k)
  {
    InvHolds(conns, updates, events);
    Unroll(conns, updates, events, Consume(j, a));
    hide Run;
    var r := Run(conns, updates, events);
    UI.History(|r.conns|, r.histories[j], a, 0);
    hide UpdateInv, Counters, MainInv;
  }

  /** compute sends its own connection's backlog to the updates in turn, and to no other update. */
  lemma ComputeSendsItsBacklog(conns: seq<Backlog>, updates: nat, events: seq<Event>, i: nat, j: nat, k: nat)
    requires j < updates && k < updates && i < |Run(conns, updates, events).computes|
    requires Run(conns, updates, events).computes[i] == Sending(j)
    ensures var r, t := Run(conns, updates, events), Run(conns, updates, events + [SendNext(i)]);
            && i < |conns| && k < |r.histories| && |t.histories| == |r.histories| && |t.conns| == |r.conns|
            && UpdateOf(t, k) == (if k == j then U.Step(UpdateOf(r, k), U.Send(conns[i])) else UpdateOf(r, k))
            && t.computes == r.computes[i := Sending(j + 1)]
  {
    InvHolds(conns, updates, events);
    Unroll(conns, updates, events, SendNext(i));
    hide Run;
    var r := Run(conns, updates, events);
    UI.History(|r.conns|, r.histories[j], U.Send(conns[i]), 0);
    hide UpdateInv, MainInv;
  }
}
