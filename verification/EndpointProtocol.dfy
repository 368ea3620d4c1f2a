/** helper/endpoint.go as a state machine: the `run` loop with its timer, the goroutines that install
    connections, the calls in progress, and everything that changes the state under the mutex.

    The n-th connection attempt that succeeds yields reporter n; a reporter is a handle that can be closed. */
module EndpointProtocol {
  import opened Base

  const CHAN_SIZE := 32

  /** Online is `nil`.  Unavailable is an error that IsUnavailableErr recognises. */
  datatype Err = Online | ErrClosed | ErrDisconnected | Unavailable(code: int) | OtherErr(code: int)

  datatype Config = Config(cache: int, limit: int, online: int, offline: int)

  datatype Status = Status(err: Err, changed: int, updated: int, idleSince: int, calls: int)

  /** connTimer: set to fire at a time, fired with its tick unread, or spent. */
  datatype Timer = Armed(at: int) | Fired | Spent

  datatype Pc = Select | Connecting | Exited

  /** A connection attempt by `run` and the `updateConnection` goroutine it spawned.  `err` is what the
      attempt returned; the reporter exists exactly if it is Online. */
  datatype Attempt = Attempt(err: Err, when: int, makeReady: bool, applied: bool)

  /** A goroutine that holds the mutex because its send has no room, and what it does after the send. */
  datatype Sender = StatusSender(retired: Option<nat>, makeReady: bool) | ConfigSender(config: Config)

  datatype Closer = NotClosed | WaitingForRun | DoneClosing

  datatype Fault = NoFault | SendOnClosed | TimerHang | NilReporter | NegativeWaitGroup

  datatype State = State(
    clock: int,
    status: Status,
    sequence: nat,
    reporter: Option<nat>,
    config: Config,
    configQueue: seq<Config>,
    statusQueue: seq<Status>,
    channelsClosed: bool,
    ready: int,
    sender: Option<Sender>,
    attempts: seq<Attempt>,
    closing: multiset<nat>,     // goroutines about to close a retired reporter
    closes: multiset<nat>,      // the times each reporter has been closed
    callers: multiset<nat>,     // calls in progress, by the reporter they captured
    closer: Closer,
    pc: Pc,
    runConfig: Config,
    runOnline: bool,
    timer: Timer,
    connTimestamp: Option<int>,
    fault: Fault)

  datatype Action =
    | Tick(n: nat)
    | TimerFires
    | RunConfig                                   // run receives from configChange, or finds it closed
    | RunStatus                                   // run receives from stateChange, or finds it closed
    | RunTick                                     // run receives from the timer and starts to connect
    | RunConnected(err: Err)                      // the attempt ends; run spawns updateConnection
    | UpdateConnection(n: nat)
    | RetireClose(n: nat)                         // a spawned retired.Close() runs
    | FinishSend                                  // the blocked sender finds room
    | UpdateConfig(config: Config)
    | UpdateHealth(sequence: nat, calls: int)
    | BeginCall(unresponsive: bool)               // unresponsive: the call tracker has an overdue call
    | EndCall(n: nat, err: Err, when: int)        // when was read from the clock before the mutex was taken
    | CloseBegin
    | CloseEnd

  function Init(config: Config, now: int): State {
    State(now, Status(ErrDisconnected, now, now, 0, 0), 0, None, config, [], [], false, 1, None, [],
          multiset{}, multiset{}, multiset{}, NotClosed, Select, config, false, Armed(now), None, NoFault)
  }

  predicate Unlocked(s: State) { s.sender == None }

  // ---------------------------------------------------------------- the timer

  /** resetActiveTimer: Stop reports an expired timer, whose tick is then drained; with no tick it hangs. */
  function ResetActive(s: State, at: int): State {
    if s.timer == Spent then s.(fault := TimerHang) else s.(timer := Armed(at))
  }

  /** resetConnectionTimer; before the first attempt the timestamp is the zero time, long past. */
  function ResetConnection(s: State): State {
    var interval := if s.runOnline then s.runConfig.online else s.runConfig.offline;
    var due := if s.connTimestamp.Some? then s.connTimestamp.value + interval else s.clock;
    ResetActive(s, if due > s.clock then due else s.clock)
  }

  // ---------------------------------------------------------------- run

  function RunConfigStep(s: State): State {
    if s.pc != Select then s
    else if s.configQueue == [] then if s.channelsClosed then s.(pc := Exited) else s
    else
      var new', old' := s.configQueue[0], s.runConfig;
      var t := s.(configQueue := s.configQueue[1..], runConfig := new');
      if old'.cache != new'.cache || old'.limit != new'.limit then ResetActive(t, s.clock)
      else if old'.offline != new'.offline || old'.online != new'.online then ResetConnection(t)
      else t
  }

  function RunStatusStep(s: State): State {
    if s.pc != Select then s
    else if s.statusQueue == [] then if s.channelsClosed then s.(pc := Exited) else s
    else
      var online := s.statusQueue[0].err == Online;
      var t := s.(statusQueue := s.statusQueue[1..], runOnline := online);
      if s.runOnline && !online then ResetActive(t, s.clock) else t
  }

  function RunTickStep(s: State): State {
    if s.pc == Select && s.timer == Fired then s.(pc := Connecting, timer := Spent, connTimestamp := Some(s.clock)) else s
  }

  function RunConnectedStep(s: State, err: Err): State {
    if s.pc != Connecting || s.connTimestamp == None || err == ErrClosed then s
    else
      var interval := if err == Online then s.runConfig.online else s.runConfig.offline;
      s.(pc := Select,
         attempts := s.attempts + [Attempt(err, s.connTimestamp.value, s.attempts == [], false)],
         timer := Armed(s.clock + interval))
  }

  // ---------------------------------------------------------------- sections under the mutex

  function Unready(s: State, makeReady: bool): State {
    if !makeReady then s
    else if s.ready <= 0 then s.(fault := NegativeWaitGroup)
    else s.(ready := s.ready - 1)
  }

  function Retire(s: State, retired: Option<nat>): State {
    if retired.Some? then s.(closing := s.closing + multiset{retired.value}) else s
  }

  /** Sends the current status; with the buffer full the goroutine keeps the mutex until run makes room. */
  function SendStatus(s: State, retired: Option<nat>, makeReady: bool): State {
    if s.channelsClosed then s.(fault := SendOnClosed)
    else if |s.statusQueue| >= CHAN_SIZE then s.(sender := Some(StatusSender(retired, makeReady)))
    else Unready(Retire(s.(statusQueue := s.statusQueue + [s.status]), retired), makeReady)
  }

  function FinishSendStep(s: State): State {
    if s.sender == None then s
    else
      match s.sender.value
      case StatusSender(retired, makeReady) =>
        if |s.statusQueue| >= CHAN_SIZE then s else SendStatus(s.(sender := None), retired, makeReady)
      case ConfigSender(config) =>
        if |s.configQueue| >= CHAN_SIZE then s
        else if s.channelsClosed then s.(fault := SendOnClosed)
        else s.(sender := None, configQueue := s.configQueue + [config])
  }

  function Reporter(s: State, n: nat): Option<nat>
    requires n < |s.attempts|
  {
    if s.attempts[n].err == Online then Some(n) else None
  }

  /** updateConnection: installs the attempt's reporter and error, or retires it if the endpoint is closed.
      The error is stored before updateConnectionState compares, so Changed stays what it was. */
  function UpdateConnectionStep(s: State, n: nat): State {
    if !Unlocked(s) || n >= |s.attempts| || s.attempts[n].applied then s
    else
      var a := s.attempts[n];
      var t := s.(attempts := s.attempts[n := a.(applied := true)]);
      if s.status.err == ErrClosed then Unready(Retire(t, Reporter(s, n)), a.makeReady)
      else
        SendStatus(t.(reporter := Reporter(s, n), status := s.status.(err := a.err, updated := a.when)),
                   s.reporter, a.makeReady)
  }

  function UpdateConfigStep(s: State, config: Config): State {
    if !Unlocked(s) then s
    else
      var t := s.(config := config);
      if s.status.err == ErrClosed then t
      else if s.channelsClosed then s.(fault := SendOnClosed)
      else if |s.configQueue| >= CHAN_SIZE then t.(sender := Some(ConfigSender(config)))
      else t.(configQueue := s.configQueue + [config])
  }

  function UpdateHealthStep(s: State, sequence: nat, calls: int): State {
    if !Unlocked(s) || s.status.err == ErrClosed || s.sequence > sequence then s
    else SendStatus(s.(status := s.status.(updated := s.clock, calls := calls), sequence := sequence), None, false)
  }

  /** The start of Vector, Backlog and Report, once ready: fails at once unless the endpoint is online.  Vector
      and Backlog fail as well while it is unresponsive; for Report `unresponsive` is always false. */
  function BeginCallStep(s: State, unresponsive: bool): State {
    if !Unlocked(s) || s.ready > 0 || s.status.err != Online || unresponsive then s
    else if s.reporter == None then s.(fault := NilReporter)
    else s.(callers := s.callers + multiset{s.reporter.value})
  }

  /** updateStateAfterCall, with updateConnectionState(err, when, true) inside. */
  function EndCallStep(s: State, n: nat, err: Err, when: int): State {
    if !Unlocked(s) || n !in s.callers || when > s.clock then s
    else
      var t := s.(callers := s.callers - multiset{n},
                  status := s.status.(idleSince := if s.status.idleSince < when then when else s.status.idleSince));
      if !err.Unavailable? || s.reporter != Some(n) then t
      else if t.status.err == ErrClosed || t.status.updated > when then t
      else
        var status := t.status.(err := err, updated := when,
                                changed := if t.status.err != err then when else t.status.changed);
        SendStatus(t.(status := status), None, false)
  }

  function CloseBeginStep(s: State): State {
    if !Unlocked(s) || s.status.err == ErrClosed then s
    else s.(status := s.status.(err := ErrClosed), channelsClosed := true, closer := WaitingForRun)
  }

  function CloseEndStep(s: State): State {
    if !Unlocked(s) || s.closer != WaitingForRun || s.pc != Exited then s
    else
      var t := s.(closer := DoneClosing);
      if s.reporter == None then t
      else t.(closes := s.closes + multiset{s.reporter.value}, reporter := None)
  }

  function Step(s: State, a: Action): State {
    if s.fault != NoFault then s else
    match a
    case Tick(n) => s.(clock := s.clock + n)
    case TimerFires => if s.timer.Armed? && s.timer.at <= s.clock then s.(timer := Fired) else s
    case RunConfig => RunConfigStep(s)
    case RunStatus => RunStatusStep(s)
    case RunTick => RunTickStep(s)
    case RunConnected(err) => RunConnectedStep(s, err)
    case UpdateConnection(n) => UpdateConnectionStep(s, n)
    case RetireClose(n) =>
      if n in s.closing then s.(closing := s.closing - multiset{n}, closes := s.closes + multiset{n}) else s
    case FinishSend => FinishSendStep(s)
    case UpdateConfig(config) => UpdateConfigStep(s, config)
    case UpdateHealth(sequence, calls) => UpdateHealthStep(s, sequence, calls)
    case BeginCall(unresponsive) => BeginCallStep(s, unresponsive)
    case EndCall(n, err, when) => EndCallStep(s, n, err, when)
    case CloseBegin => CloseBeginStep(s)
    case CloseEnd => CloseEndStep(s)
  }

  function Exec(s: State, acts: seq<Action>): State {
    if acts == [] then s else Step(Exec(s, acts[..|acts| - 1]), acts[|acts| - 1])
  }

  function Run(config: Config, now: int, acts: seq<Action>): State {
    Exec(Init(config, now), acts)
  }
}
