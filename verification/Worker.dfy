/** monitor/worker.go: the goroutines of one polling round, step by step.  The WaitGroup counters are plain
    fields here; that they never go negative is what `Valid` gives. */
module Worker {
  import opened Dfsr
  import U = UpdateProtocol
  import opened RoundProtocol
  import opened RoundTheorems

  class PollRound {
    const conns: seq<Backlog>
    var contextDone: bool
    var computes: seq<Compute>
    var computed: int
    var sent: int
    var histories: seq<seq<U.Action>>
    var started: seq<int>
    var ended: seq<int>
    var main: Main

    function Snapshot(): Round
      reads this
    {
      Round(conns, contextDone, computes, computed, sent, histories, started, ended, main, false)
    }

    ghost predicate Valid()
      reads this
    {
      Inv(Snapshot())
    }

    constructor (conns: seq<Backlog>, updates: nat)
      ensures Valid() && Snapshot() == Init(conns, updates)
    {
      this.conns := conns;
      contextDone, main := false, Announcing(0);
      computes := seq(|conns|, _ => Start);
      computed, sent := |conns|, |conns|;
      histories := seq(updates, _ => []);
      started, ended := seq(updates, _ => 1), seq(updates, _ => 1);
      new;
      InitInv(conns, updates);
    }

    method CancelContext()
      requires Valid()
      modifies this
      ensures Valid() && Snapshot() == Step(old(Snapshot()), Event.CancelContext)
    {
      StepKeeps(Snapshot(), Event.CancelContext);
      contextDone := true;
    }

    /** compute looks at its context before it asks for the backlog. */
    method CheckContext(i: nat)
      requires Valid() && i < |computes| && computes[i] == Start
      modifies this
      ensures Valid() && Snapshot() == Step(old(Snapshot()), Check(i))
      ensures computed >= 0 && sent >= 0
    {
      StepKeeps(Snapshot(), Check(i));
      CountPositive(Uncomputed, computes, i);
      CountPositive(Unsent, computes, i);
      if contextDone {
        computed := computed - 1;
        sent := sent - 1;
        computes := computes[i := Finished(true)];
        return;
      }
      computes := computes[i := Querying];
    }

    method BacklogArrives(i: nat)
      requires Valid() && i < |computes| && computes[i] == Querying
      modifies this
      ensures Valid() && Snapshot() == Step(old(Snapshot()), QueryReturns(i))
      ensures computed >= 0
    {
      StepKeeps(Snapshot(), QueryReturns(i));
      CountPositive(Uncomputed, computes, i);
      computed := computed - 1;
      computes := computes[i := Sending(0)];
    }

    /** One turn of compute's loop over the updates, or the Done that follows it. */
    method SendOrFinish(i: nat)
      requires Valid() && i < |computes| && computes[i].Sending?
      modifies this
      ensures Valid() && Snapshot() == Step(old(Snapshot()), SendNext(i))
      ensures sent >= 0
    {
      StepKeeps(Snapshot(), SendNext(i));
      CountPositive(Unsent, computes, i);
      var k := computes[i].next;
      if k < |histories| {
        histories := histories[k := histories[k] + [U.Send(conns[i])]];
        computes := computes[i := Sending(k + 1)];
      } else {
        sent := sent - 1;
        computes := computes[i := Finished(false)];
      }
    }

    /** The next statement of Poll; it stays where it is while a WaitGroup holds it. */
    method Advance()
      requires Valid()
      modifies this
      ensures Valid() && Snapshot() == Step(old(Snapshot()), PollStep)
      ensures main.Closing? || main.Returned? ==> computed == 0 && sent == 0
    {
      StepKeeps(Snapshot(), PollStep);
      if sent == 0 {
        NoneUnsent(computes);
        NoneUncomputed(computes);
      }
      match main
      case Announcing(j) =>
        if j < |started| {
          started := started[j := started[j] - 1];
          main := Announcing(j + 1);
        } else {
          main := AwaitComputed;
        }
      case AwaitComputed =>
        if computed == 0 {
          main := AwaitSent;
        }
      case AwaitSent =>
        if sent == 0 {
          main := Closing(0);
        }
      case Closing(j) =>
        if j < |ended| {
          ended := ended[j := ended[j] - 1];
          main := Closing(j + 1);
        } else {
          main := Returned;
        }
      case Returned =>
    }

    /** A consumer listens to, receives from, or is served by update j. */
    method ConsumerActs(j: nat, a: U.Action)
      requires Valid() && j < |histories| && !a.Send? && !a.Cancel?
      modifies this
      ensures Valid() && Snapshot() == Step(old(Snapshot()), Consume(j, a))
    {
      StepKeeps(Snapshot(), Consume(j, a));
      histories := histories[j := histories[j] + [a]];
    }
  }

  lemma {:induction false} NoneUncomputed(cs: seq<Compute>)
    requires forall i :: 0 <= i < |cs| ==> cs[i].Finished?
    ensures Count(Uncomputed, cs) == 0
  {
    if cs == [] {
    } else {
      NoneUncomputed(cs[..|cs| - 1]);
    }
  }
}
