/** poller/poller.go as a state machine: the run loop, the invocations it spawns, the callers of Poll and
    the caller of Close, with the mutex and the condition variable between them. */
module PollerProtocol {
  import opened Base

  /** An `invoke` goroutine.  Polling: inside source.Poll.  Owing: before idle.Broadcast. */
  datatype Invocation = Spawned | Polling | Polled | Owing | Gone

  /** Who keeps the mutex from one step to the next: nobody, a Poll blocked in its send, or Close while it
      is inside source.Close. */
  datatype Holder = Nobody | PulseSender | SourceCloser

  datatype Closer = NotClosing | Asleep | Woken | ClosingSource | Finished

  datatype State = State(
    closed: bool,               // set together with the closing of stop and pulse
    running: Option<nat>,       // the invocation whose cancel function is installed
    canceled: bool,             // Close has called that function
    holder: Holder,
    closer: Closer,
    runExited: bool,
    invocations: seq<Invocation>,
    sourceCloses: nat)

  datatype Action =
    | Pulse                     // Poll takes the mutex and starts to send
    | RunPulse                  // run receives from pulse
    | RunTicker                 // run receives from its ticker
    | RunStop                   // run receives from stop
    | Start(i: nat)
    | SourceReturns(i: nat)
    | Finish(i: nat)
    | Broadcast(i: nat)
    | CloseBegin
    | CloseWake
    | SourceClosed

  function Init(): State {
    State(false, None, false, Nobody, NotClosing, false, [], 0)
  }

  predicate At(s: State, i: nat, pc: Invocation) { i < |s.invocations| && s.invocations[i] == pc }

  function Move(s: State, i: nat, pc: Invocation): State
    requires i < |s.invocations|
  {
    s.(invocations := s.invocations[i := pc])
  }

  /** `go p.invoke()` */
  function Spawn(s: State): State {
    s.(invocations := s.invocations + [Spawned])
  }

  /** A closed pulse channel delivers for ever; an open one only what a blocked Poll is sending. */
  function RunPulseStep(s: State): State {
    if s.runExited then s
    else if s.holder == PulseSender then Spawn(s.(holder := Nobody))
    else if s.closed then Spawn(s)
    else s
  }

  function StartStep(s: State, i: nat): State {
    if s.holder != Nobody || !At(s, i, Spawned) then s
    else if !s.closed && s.running == None then Move(s, i, Polling).(running := Some(i))
    else Move(s, i, Gone)
  }

  function FinishStep(s: State, i: nat): State {
    if s.holder != Nobody || !At(s, i, Polled) then s else Move(s, i, Owing).(running := None)
  }

  function BroadcastStep(s: State, i: nat): State {
    if !At(s, i, Owing) then s
    else Move(s, i, Gone).(closer := if s.closer == Asleep then Woken else s.closer)
  }

  /** The loop around idle.Wait: sleep while an invocation runs, otherwise close the source. */
  function AwaitIdle(s: State): State {
    if s.running.Some? then s.(closer := Asleep) else s.(closer := ClosingSource, holder := SourceCloser)
  }

  function CloseBeginStep(s: State): State {
    if s.holder != Nobody || s.closed then s
    else AwaitIdle(s.(closed := true, canceled := s.running.Some?))
  }

  function Step(s: State, a: Action): State {
    match a
    case Pulse => if s.holder == Nobody && !s.closed then s.(holder := PulseSender) else s
    case RunPulse => RunPulseStep(s)
    case RunTicker => if s.runExited then s else Spawn(s)
    case RunStop => if s.closed then s.(runExited := true) else s
    case Start(i) => StartStep(s, i)
    case SourceReturns(i) => if At(s, i, Polling) then Move(s, i, Polled) else s
    case Finish(i) => FinishStep(s, i)
    case Broadcast(i) => BroadcastStep(s, i)
    case CloseBegin => CloseBeginStep(s)
    case CloseWake => if s.closer == Woken && s.holder == Nobody then AwaitIdle(s) else s
    case SourceClosed =>
      if s.closer == ClosingSource then
        s.(closer := Finished, holder := Nobody, sourceCloses := s.sourceCloses + 1)
      else s
  }

  function Exec(s: State, acts: seq<Action>): State {
    if acts == [] then s else Step(Exec(s, acts[..|acts| - 1]), acts[|acts| - 1])
  }

  function Run(acts: seq<Action>): State {
    Exec(Init(), acts)
  }
}
