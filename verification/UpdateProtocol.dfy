/** The update fan-out protocol of monitor/update.go as a state machine.

    `u.listeners` is a slice of structs held by value.  When `append` outgrows its backing array the
    structs are copied, and goroutines that were spawned on the old elements keep working on the old
    copies.  A listener is therefore a channel plus the sequence of struct copies that feed it, the
    last of which is the one the slice currently holds.

    A spawned goroutine `go listeners[i].send(v)` waits in the inbox of the copy whose address it
    took; any of the waiting goroutines may be the next to run. */
module UpdateProtocol {
  import opened Dfsr

  /** How a run can crash (a Go panic) or wedge (a send on a full buffer). */
  datatype Fault = NoFault | SendAfterDone | SendOnClosed | CloseOfClosed | BlockedSend | NegativeWaitGroup

  /** A buffered channel: everything ever sent on it, and how much the consumer has taken. */
  datatype Channel = Channel(cap: nat, sent: seq<Backlog>, taken: nat, closed: bool)

  /** One `updateListener` struct: `ch != nil`, `remaining`, and the goroutines spawned on it. */
  datatype Copy = Copy(open: bool, remaining: int, inbox: multiset<Backlog>, cancels: nat)

  datatype Listener = Listener(ch: Channel, copies: seq<Copy>)

  datatype State = State(
    size: nat,
    canceled: bool,
    values: seq<Backlog>,
    received: int,
    remaining: int,
    slice: seq<nat>,
    capacity: nat,
    listeners: seq<Listener>,
    fault: Fault)

  datatype Action =
    | Listen(grow: nat)                            // grow: the capacity the runtime picks if it must reallocate
    | Send(v: Backlog)
    | Cancel
    | RunSend(l: nat, copy: nat, v: Backlog)       // a spawned updateListener.send runs
    | RunCancel(l: nat, copy: nat)                 // a spawned updateListener.cancel runs
    | Receive(l: nat)                              // the consumer takes a value

  // ---------------------------------------------------------------- one listener

  function Current(l: Listener): Copy
    requires l.copies != []
  {
    l.copies[|l.copies| - 1]
  }

  function WithCurrent(l: Listener, c: Copy): Listener
    requires l.copies != []
  {
    l.(copies := l.copies[|l.copies| - 1 := c])
  }

  /** `go listeners[i].send(v)` */
  function Post(l: Listener, v: Backlog): Listener {
    if l.copies == [] then l else WithCurrent(l, Current(l).(inbox := Current(l).inbox + multiset{v}))
  }

  /** `go listeners[i].cancel()` */
  function PostCancel(l: Listener): Listener {
    if l.copies == [] then l else WithCurrent(l, Current(l).(cancels := Current(l).cancels + 1))
  }

  /** `append` moved the slice: the element is copied, its goroutines stay with the old element. */
  function Recopy(l: Listener): Listener {
    if l.copies == [] then l else l.(copies := l.copies + [Current(l).(inbox := multiset{}, cancels := 0)])
  }

  function NewCopy(remaining: int): Copy {
    Copy(true, remaining, multiset{}, 0)
  }

  /** The body of updateListener.send, run on copy `g`. */
  function Deliver(l: Listener, g: nat, v: Backlog): (Listener, Fault)
    requires g < |l.copies|
  {
    var c := l.copies[g].(inbox := l.copies[g].inbox - multiset{v});
    if !c.open then (l.(copies := l.copies[g := c]), NoFault)
    else if l.ch.closed then (l, SendOnClosed)
    else if |l.ch.sent| >= l.ch.taken + l.ch.cap then (l, BlockedSend)
    else
      var ch := l.ch.(sent := l.ch.sent + [v]);
      if c.remaining == 1 then
        (Listener(ch.(closed := true), l.copies[g := c.(open := false, remaining := 0)]), NoFault)
      else
        (Listener(ch, l.copies[g := c.(remaining := c.remaining - 1)]), NoFault)
  }

  /** The body of updateListener.cancel, run on copy `g`. */
  function DeliverCancel(l: Listener, g: nat): (Listener, Fault)
    requires g < |l.copies| && l.copies[g].cancels > 0
  {
    var c := l.copies[g].(cancels := l.copies[g].cancels - 1);
    if !c.open then (l.(copies := l.copies[g := c]), NoFault)
    else if l.ch.closed then (l, CloseOfClosed)
    else (Listener(l.ch.(closed := true), l.copies[g := c.(open := false)]), NoFault)
  }

  // ---------------------------------------------------------------- the whole update

  function PostAll(ls: seq<Listener>, slice: seq<nat>, v: Backlog): (r: seq<Listener>) {
    seq(|ls|, i requires 0 <= i < |ls| => if i in slice then Post(ls[i], v) else ls[i])
  }

  function PostCancelAll(ls: seq<Listener>, slice: seq<nat>): (r: seq<Listener>) {
    seq(|ls|, i requires 0 <= i < |ls| => if i in slice then PostCancel(ls[i]) else ls[i])
  }

  function RecopyAll(ls: seq<Listener>, slice: seq<nat>): (r: seq<Listener>) {
    seq(|ls|, i requires 0 <= i < |ls| => if i in slice then Recopy(ls[i]) else ls[i])
  }

  function Init(size: nat): State {
    State(size, false, [], size, size, [], 2, [], NoFault)
  }

  function ListenStep(s: State, grow: nat): State {
    if s.size == 0 then
      s.(listeners := s.listeners + [Listener(Channel(0, [], 0, true), [])])
    else if |s.values| > s.size then
      s.(fault := BlockedSend)
    else
      var ch := Channel(s.size, s.values, 0, s.canceled);
      if s.canceled then
        s.(listeners := s.listeners + [Listener(ch, [])])
      else
        var grown := |s.slice| >= s.capacity;
        var moved := if grown then RecopyAll(s.listeners, s.slice) else s.listeners;
        s.(listeners := moved + [Listener(ch, [NewCopy(s.remaining)])],
           slice := s.slice + [|s.listeners|],
           capacity := if !grown then s.capacity else if grow > |s.slice| then grow else |s.slice| + 1)
  }

  function SendStep(s: State, v: Backlog): State {
    if s.canceled then s
    else if s.remaining == 0 then s.(fault := SendAfterDone)
    else if s.received <= 0 then s.(fault := NegativeWaitGroup)
    else
      s.(values := s.values + [v],
         received := s.received - 1,
         remaining := s.remaining - 1,
         listeners := PostAll(s.listeners, s.slice, v),
         slice := if s.remaining == 1 then [] else s.slice,
         capacity := if s.remaining == 1 then 0 else s.capacity)
  }

  function CancelStep(s: State): State {
    if s.canceled || s.remaining == 0 then s
    else if s.received < s.remaining then s.(fault := NegativeWaitGroup)
    else
      s.(canceled := true,
         received := s.received - s.remaining,
         listeners := PostCancelAll(s.listeners, s.slice),
         slice := [],
         capacity := 0)
  }

  predicate CanRunSend(s: State, l: nat, g: nat, v: Backlog) {
    l < |s.listeners| && g < |s.listeners[l].copies| && v in s.listeners[l].copies[g].inbox
  }

  predicate CanRunCancel(s: State, l: nat, g: nat) {
    l < |s.listeners| && g < |s.listeners[l].copies| && s.listeners[l].copies[g].cancels > 0
  }

  function Settle(s: State, l: nat, outcome: (Listener, Fault)): State
    requires l < |s.listeners|
  {
    if outcome.1 == NoFault then s.(listeners := s.listeners[l := outcome.0]) else s.(fault := outcome.1)
  }

  function RunSendStep(s: State, l: nat, g: nat, v: Backlog): State {
    if CanRunSend(s, l, g, v) then Settle(s, l, Deliver(s.listeners[l], g, v)) else s
  }

  function RunCancelStep(s: State, l: nat, g: nat): State {
    if CanRunCancel(s, l, g) then Settle(s, l, DeliverCancel(s.listeners[l], g)) else s
  }

  function ReceiveStep(s: State, l: nat): State {
    if l < |s.listeners| && s.listeners[l].ch.taken < |s.listeners[l].ch.sent| then
      var ch := s.listeners[l].ch;
      s.(listeners := s.listeners[l := s.listeners[l].(ch := ch.(taken := ch.taken + 1))])
    else s
  }

  /** One atomic step.  A step that is not enabled leaves the state alone; a crashed run stays crashed. */
  function Step(s: State, a: Action): State {
    if s.fault != NoFault then s else
    match a
    case Listen(grow) => ListenStep(s, grow)
    case Send(v) => SendStep(s, v)
    case Cancel => CancelStep(s)
    case RunSend(l, g, v) => RunSendStep(s, l, g, v)
    case RunCancel(l, g) => RunCancelStep(s, l, g)
    case Receive(l) => ReceiveStep(s, l)
  }

  /** Every schedule is a sequence of actions, so a run is what this function computes. */
  function Exec(s: State, acts: seq<Action>): State {
    if acts == [] then s else Step(Exec(s, acts[..|acts| - 1]), acts[|acts| - 1])
  }

  function Run(size: nat, acts: seq<Action>): State {
    Exec(Init(size), acts)
  }

  // ---------------------------------------------------------------- what is in flight

  function InFlight(copies: seq<Copy>): multiset<Backlog> {
    if copies == [] then multiset{}
    else InFlight(copies[..|copies| - 1]) + copies[|copies| - 1].inbox
  }

  /** Sends still waiting on copies that the slice no longer holds. */
  function Stranded(l: Listener): multiset<Backlog> {
    if l.copies == [] then multiset{} else InFlight(l.copies[..|l.copies| - 1])
  }

  predicate Reallocates(s: State) {
    s.fault == NoFault && s.size > 0 && !s.canceled && |s.slice| >= s.capacity
  }

  /** The sends of listener `l` that this action cuts off from the copy the slice will hold. */
  function Loss(s: State, a: Action, l: nat): nat {
    if a.Listen? && Reallocates(s) && l in s.slice && l < |s.listeners| && s.listeners[l].copies != []
    then |Current(s.listeners[l]).inbox| else 0
  }

  function Lost(size: nat, acts: seq<Action>, l: nat): nat {
    if acts == [] then 0
    else
      var before := acts[..|acts| - 1];
      Lost(size, before, l) + Loss(Run(size, before), acts[|acts| - 1], l)
  }

  /** Were values still to come when listener `l` joined? */
  predicate JoinedEarly(size: nat, acts: seq<Action>, l: nat) {
    acts != [] &&
    var before := acts[..|acts| - 1];
    if l < |Run(size, before).listeners| then JoinedEarly(size, before, l)
    else Run(size, before).remaining > 0
  }

  function Sends(acts: seq<Action>): nat {
    if acts == [] then 0
    else Sends(acts[..|acts| - 1]) + if acts[|acts| - 1].Send? then 1 else 0
  }
}
