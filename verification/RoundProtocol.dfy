/** One polling round of monitor/worker.go: `Poll` and its `compute` goroutines drive the updates that
    `Broadcast` made, while the consumers of those updates do what they like.

    Each update is represented by the history of what was done to it, so that its state is a run of the
    update protocol. */
module RoundProtocol {
  import opened Dfsr
  import U = UpdateProtocol

  /** Where a `compute` goroutine stands; Sending(k) is about to call updates[k].send. */
  datatype Compute = Start | Querying | Sending(next: nat) | Finished(canceled: bool)

  /** Where `Poll` stands: calling setStart, waiting for either WaitGroup, calling setEnd, done. */
  datatype Main = Announcing(j: nat) | AwaitComputed | AwaitSent | Closing(j: nat) | Returned

  datatype Round = Round(
    conns: seq<Backlog>,
    contextDone: bool,
    computes: seq<Compute>,
    computed: int,
    sent: int,
    histories: seq<seq<U.Action>>,
    started: seq<int>,
    ended: seq<int>,
    main: Main,
    negativeWaitGroup: bool)

  datatype Event =
    | CancelContext
    | Check(i: nat)             // compute i looks at the context
    | QueryReturns(i: nat)      // compute i has its answer
    | SendNext(i: nat)          // compute i sends to its next update, or is done
    | PollStep                  // Poll takes its next step, if it is not waiting
    | Consume(j: nat, a: U.Action)

  function Init(conns: seq<Backlog>, updates: nat): Round {
    var n := |conns|;
    Round(conns, false, seq(n, _ => Start), n, n, seq(updates, _ => []),
          seq(updates, _ => 1), seq(updates, _ => 1), Announcing(0), false)
  }

  function UpdateOf(r: Round, j: nat): U.State
    requires j < |r.histories|
  {
    U.Run(|r.conns|, r.histories[j])
  }

  function CheckStep(r: Round, i: nat): Round {
    if !(i < |r.computes| && r.computes[i] == Start) then r
    else if !r.contextDone then r.(computes := r.computes[i := Querying])
    else if r.computed <= 0 || r.sent <= 0 then r.(negativeWaitGroup := true)
    else r.(computes := r.computes[i := Finished(true)], computed := r.computed - 1, sent := r.sent - 1)
  }

  function QueryReturnsStep(r: Round, i: nat): Round {
    if !(i < |r.computes| && r.computes[i] == Querying) then r
    else if r.computed <= 0 then r.(negativeWaitGroup := true)
    else r.(computes := r.computes[i := Sending(0)], computed := r.computed - 1)
  }

  function SendNextStep(r: Round, i: nat): Round {
    if !(i < |r.computes| && i < |r.conns| && r.computes[i].Sending?) then r
    else
      var k := r.computes[i].next;
      if k < |r.histories| then
        r.(computes := r.computes[i := Sending(k + 1)],
           histories := r.histories[k := r.histories[k] + [U.Send(r.conns[i])]])
      else if r.sent <= 0 then r.(negativeWaitGroup := true)
      else r.(computes := r.computes[i := Finished(false)], sent := r.sent - 1)
  }

  function PollStepOf(r: Round): Round {
    match r.main
    case Announcing(j) =>
      if j < |r.started| then
        if r.started[j] <= 0 then r.(negativeWaitGroup := true)
        else r.(started := r.started[j := r.started[j] - 1], main := Announcing(j + 1))
      else r.(main := AwaitComputed)
    case AwaitComputed => if r.computed == 0 then r.(main := AwaitSent) else r
    case AwaitSent => if r.sent == 0 then r.(main := Closing(0)) else r
    case Closing(j) =>
      if j < |r.ended| then
        if r.ended[j] <= 0 then r.(negativeWaitGroup := true)
        else r.(ended := r.ended[j := r.ended[j] - 1], main := Closing(j + 1))
      else r.(main := Returned)
    case Returned => r
  }

  /** Consumers can listen, receive, and have their goroutines run; send and cancel are not exported. */
  function ConsumeStep(r: Round, j: nat, a: U.Action): Round {
    if j < |r.histories| && !a.Send? && !a.Cancel? then
      r.(histories := r.histories[j := r.histories[j] + [a]])
    else r
  }

  function Step(r: Round, e: Event): Round {
    if r.negativeWaitGroup then r else
    match e
    case CancelContext => r.(contextDone := true)
    case Check(i) => CheckStep(r, i)
    case QueryReturns(i) => QueryReturnsStep(r, i)
    case SendNext(i) => SendNextStep(r, i)
    case PollStep => PollStepOf(r)
    case Consume(j, a) => ConsumeStep(r, j, a)
  }

  function Exec(r: Round, events: seq<Event>): Round {
    if events == [] then r else Step(Exec(r, events[..|events| - 1]), events[|events| - 1])
  }

  function Run(conns: seq<Backlog>, updates: nat, events: seq<Event>): Round {
    Exec(Init(conns, updates), events)
  }

  // ---------------------------------------------------------------- counting goroutines

  predicate Uncomputed(c: Compute) { c.Start? || c.Querying? }

  predicate Unsent(c: Compute) { !c.Finished? }

  predicate SawCancel(c: Compute) { c.Finished? && c.canceled }

  /** Has this goroutine sent to update j? */
  predicate HasSent(c: Compute, j: nat) { (c.Sending? && c.next > j) || (c.Finished? && !c.canceled) }

  function StillOwes(j: nat): Compute -> bool {
    c => !HasSent(c, j)
  }

  function Count(p: Compute -> bool, cs: seq<Compute>): nat {
    if cs == [] then 0 else Count(p, cs[..|cs| - 1]) + if p(cs[|cs| - 1]) then 1 else 0
  }

  function SentTo(conns: seq<Backlog>, cs: seq<Compute>, j: nat): multiset<Backlog>
    requires |conns| == |cs|
  {
    if cs == [] then multiset{}
    else
      var last := |cs| - 1;
      SentTo(conns[..last], cs[..last], j) + if HasSent(cs[last], j) then multiset{conns[last]} else multiset{}
  }
}
