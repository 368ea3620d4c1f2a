/** helper/endpoint.go: the methods of `Endpoint` and the cases of its run loop.  Each method is one section
    under the mutex, or one case of the select, and is proved to be that step of the protocol. */
module Endpoint {
  import opened Base
  import opened EndpointProtocol
  import opened EndpointTheorems

  datatype Loop = Loop(pc: Pc, config: Config, online: bool, timer: Timer, connTimestamp: Option<int>)

  datatype Ledger = Ledger(
    attempts: seq<Attempt>, closing: multiset<nat>, closes: multiset<nat>, callers: multiset<nat>)

  /** How a call fails before it reaches the reporter, if it does. */
  datatype CallError = Proceed | Offline(err: Err) | Unresponsive

  class Endpoint {
    var clock: int
    var status: Status
    var sequence: nat
    var reporter: Option<nat>
    var config: Config
    var configQueue: seq<Config>
    var statusQueue: seq<Status>
    var channelsClosed: bool
    var ready: int
    var sender: Option<Sender>
    var closer: Closer
    var loop: Loop      // the local variables of run
    var ledger: Ledger  // the goroutines and calls that refer to reporters

    function Snapshot(): State
      reads this
    {
      State(clock, status, sequence, reporter, config, configQueue, statusQueue, channelsClosed, ready, sender,
            ledger.attempts, ledger.closing, ledger.closes, ledger.callers, closer,
            loop.pc, loop.config, loop.online, loop.timer, loop.connTimestamp, NoFault)
    }

    ghost predicate Valid()
      reads this
    {
      Inv(Snapshot())
    }

    constructor (config: Config, now: int)
      ensures Valid() && Snapshot() == Init(config, now)
    {
      clock, sequence, reporter, this.config := now, 0, None, config;
      status := Status(ErrDisconnected, now, now, 0, 0);
      configQueue, statusQueue, channelsClosed := [], [], false;
      ready, sender, closer := 1, None, NotClosed;
      loop := Loop(Select, config, false, Armed(now), None);
      ledger := Ledger([], multiset{}, multiset{}, multiset{});
    }

    method TimePasses(n: nat)
      requires Valid()
      modifies this`clock
      ensures Valid() && Snapshot() == Step(old(Snapshot()), Tick(n))
    {
      hide Inv;
      InvStep(Snapshot(), Tick(n));
      clock := clock + n;
    }

    /** The connection timer reaches its time; its tick waits to be read. */
    method TimerExpires()
      requires Valid() && loop.timer.Armed? && loop.timer.at <= clock
      modifies this`loop
      ensures Valid() && Snapshot() == Step(old(Snapshot()), TimerFires)
    {
      InvStep(Snapshot(), TimerFires);
      hide Inv;
      loop := loop.(timer := Fired);
    }

    /** `go retired.Close()` runs. */
    method CloseRetired(n: nat)
      requires Valid() && n in ledger.closing
      modifies this`ledger
      ensures Valid() && Snapshot() == Step(old(Snapshot()), RetireClose(n))
      ensures ledger.closes == old(ledger).closes + multiset{n}
    {
      InvStep(Snapshot(), RetireClose(n));
      hide Inv;
      ledger := ledger.(closing := ledger.closing - multiset{n}, closes := ledger.closes + multiset{n});
    }

    /** The goroutine that waits with the mutex finds room for its send, and finishes its section. */
    method UnblockSender()
      requires Valid() && sender.Some?
      requires |if sender.value.StatusSender? then statusQueue else []| < CHAN_SIZE
      requires |if sender.value.ConfigSender? then configQueue else []| < CHAN_SIZE
      modifies this
      ensures Valid() && Snapshot() == Step(old(Snapshot()), FinishSend)
      ensures sender == None
    {
      UnblockOf(Snapshot());
      hide Inv, Step, SendStatus;
      InvStep(Snapshot(), FinishSend);
      var waiting := sender.value;
      sender := None;
      match waiting
      case StatusSender(retired, makeReady) =>
        UnblockStatus(Snapshot(), retired, makeReady);
        Notify(retired, makeReady);
      case ConfigSender(newConfig) =>
        configQueue := configQueue + [newConfig];
    }

    /** The send on stateChange at the end of a section, and what follows it when there is room. */
    method Notify(retired: Option<nat>, makeReady: bool)
      requires !channelsClosed && (makeReady ==> ready > 0)
      modifies this`statusQueue, this`sender, this`ledger, this`ready
      ensures Snapshot() == SendStatus(old(Snapshot()), retired, makeReady)
    {
      if |statusQueue| >= CHAN_SIZE {
        sender := Some(StatusSender(retired, makeReady));
        return;
      }
      statusQueue := statusQueue + [status];
      if retired.Some? {
        ledger := ledger.(closing := ledger.closing + multiset{retired.value});
      }
      if makeReady {
        ready := ready - 1;
      }
    }

    /** resetActiveTimer; Valid says that the drain of a stopped timer always finds its tick. */
    method ResetTimer(at: int)
      requires loop.timer != Spent
      modifies this`loop
      ensures loop == old(loop).(timer := Armed(at))
    {
      if loop.timer == Fired {
        loop := loop.(timer := Spent);  // the drain takes the unread tick
      }
      loop := loop.(timer := Armed(at));
    }

    /** run: the case that receives from configChange. */
    method ReceiveConfig()
      requires Valid() && loop.pc == Select && (configQueue != [] || channelsClosed)
      modifies this
      ensures Valid() && Snapshot() == Step(old(Snapshot()), RunConfig)
    {
      InvStep(Snapshot(), RunConfig);
      assert loop.timer != Spent;
      hide Inv;
      if configQueue == [] {
        loop := loop.(pc := Exited);
        return;
      }
      var newConfig := configQueue[0];
      configQueue := configQueue[1..];
      var cacheChange := loop.config.cache != newConfig.cache;
      var limitChange := loop.config.limit != newConfig.limit;
      var connTimerChange := loop.config.offline != newConfig.offline || loop.config.online != newConfig.online;
      loop := loop.(config := newConfig);
      if cacheChange || limitChange {
        ResetTimer(clock);
      } else if connTimerChange {
        var interval := if loop.online then loop.config.online else loop.config.offline;
        var due := if loop.connTimestamp.Some? then loop.connTimestamp.value + interval else clock;
        ResetTimer(if due > clock then due else clock);
      }
    }

    /** run: the case that receives from stateChange. */
    method ReceiveStatus()
      requires Valid() && loop.pc == Select && (statusQueue != [] || channelsClosed)
      modifies this
      ensures Valid() && Snapshot() == Step(old(Snapshot()), RunStatus)
    {
      InvStep(Snapshot(), RunStatus);
      assert loop.timer != Spent;
      hide Inv;
      if statusQueue == [] {
        loop := loop.(pc := Exited);
        return;
      }
      var online := statusQueue[0].err == Online;
      statusQueue := statusQueue[1..];
      var onlineChange := loop.online != online;
      loop := loop.(online := online);
      if onlineChange && !online {
        ResetTimer(clock);
      }
    }

    /** run: the case that receives from the timer, up to the connection attempt. */
    method ReceiveTick()
      requires Valid() && loop.pc == Select && loop.timer == Fired
      modifies this
      ensures Valid() && Snapshot() == Step(old(Snapshot()), RunTick)
    {
      InvStep(Snapshot(), RunTick);
      hide Inv;
      loop := loop.(timer := Spent, pc := Connecting, connTimestamp := Some(clock));
    }

    /** run: the attempt has ended; spawn updateConnection and set the timer again. */
    method AttemptEnds(err: Err) returns (n: nat)
      requires Valid() && loop.pc == Connecting && err != ErrClosed
      modifies this
      ensures Valid() && Snapshot() == Step(old(Snapshot()), RunConnected(err))
      ensures n == old(|ledger.attempts|) && |ledger.attempts| == n + 1
      ensures ledger.attempts[n].err == err && !ledger.attempts[n].applied
    {
      InvStep(Snapshot(), RunConnected(err));
      assert loop.connTimestamp.Some?;
      hide Inv;
      n := |ledger.attempts|;
      ledger := ledger.(attempts := ledger.attempts + [Attempt(err, loop.connTimestamp.value, n == 0, false)]);
      var interval := if err == Online then loop.config.online else loop.config.offline;
      loop := loop.(timer := Armed(clock + interval), pc := Select);
    }

    method InstallConnection(n: nat)
      requires Valid() && Unlocked(Snapshot()) && n < |ledger.attempts| && !ledger.attempts[n].applied
      modifies this
      ensures Valid() && Snapshot() == Step(old(Snapshot()), UpdateConnection(n))
    {
      hide Inv, SendStatus, Step, Unready, Retire;
      InvStep(Snapshot(), UpdateConnection(n));
      InstallOf(Snapshot(), n);
      var a := ledger.attempts[n];
      var r := if a.err == Online then Some(n) else None;
      ledger := ledger.(attempts := ledger.attempts[n := a.(applied := true)]);
      if status.err == ErrClosed {
        FinishConnection(r, a.makeReady);
        return;
      }
      var retired;
      retired, reporter, status := reporter, r, status.(err := a.err);
      UpdateConnectionState(a.err, a.when, false, retired, a.makeReady);
    }

    /** The end of updateConnection: retires a reporter, and marks the endpoint ready after the first attempt. */
    method FinishConnection(r: Option<nat>, makeReady: bool)
      requires makeReady ==> ready > 0
      modifies this`ledger, this`ready
      ensures Snapshot() == Unready(Retire(old(Snapshot()), r), makeReady)
    {
      if r.Some? {
        ledger := ledger.(closing := ledger.closing + multiset{r.value});
      }
      if makeReady {
        ready := ready - 1;
      }
    }

    /** updateConnectionState, followed by what its caller does when it returns. */
    method UpdateConnectionState(err: Err, when: int, onlyIfNewer: bool, retired: Option<nat>, makeReady: bool)
      requires (channelsClosed ==> status.err == ErrClosed) && (makeReady ==> ready > 0)
      modifies this`status, this`statusQueue, this`sender, this`ledger, this`ready
      ensures var s := old(Snapshot());
              var changed := if s.status.err != err then when else s.status.changed;
              Snapshot() ==
                if s.status.err == ErrClosed || (onlyIfNewer && s.status.updated > when) then
                  Unready(Retire(s, retired), makeReady)
                else SendStatus(s.(status := s.status.(err := err, updated := when, changed := changed)), retired, makeReady)
    {
      hide SendStatus, Unready, Retire;
      if status.err == ErrClosed {
        FinishConnection(retired, makeReady);
        return;
      }
      if onlyIfNewer && status.updated > when {
        FinishConnection(retired, makeReady);
        return;
      }
      if status.err != err {
        status := status.(changed := when);
      }
      status := status.(err := err, updated := when);
      Notify(retired, makeReady);
    }

    /** The start of Vector, Backlog and Report: an online endpoint always has a reporter to call. */
    method StartCall(unresponsive: bool) returns (r: Option<nat>, err: CallError)
      requires Valid() && Unlocked(Snapshot()) && ready == 0
      modifies this
      ensures Valid() && Snapshot() == Step(old(Snapshot()), BeginCall(unresponsive))
      ensures err == if status.err != Online then Offline(status.err) else if unresponsive then Unresponsive else Proceed
      ensures r == if err == Proceed then reporter else None
      ensures err == Proceed ==> r.Some?
    {
      InvStep(Snapshot(), BeginCall(unresponsive));
      assert status.err == Online ==> reporter.Some?;
      hide Inv;
      if status.err != Online {
        return None, Offline(status.err);
      }
      if unresponsive {
        return None, Unresponsive;
      }
      ledger := ledger.(callers := ledger.callers + multiset{reporter.value});
      return reporter, Proceed;
    }

    /** updateStateAfterCall */
    method UpdateStateAfterCall(n: nat, err: Err, when: int)
      requires Valid() && Unlocked(Snapshot()) && n in ledger.callers && when <= clock
      modifies this
      ensures Valid() && Snapshot() == Step(old(Snapshot()), EndCall(n, err, when))
    {
      hide Inv, Step, SendStatus, Unready, Retire;
      InvStep(Snapshot(), EndCall(n, err, when));
      EndCallOf(Snapshot(), n, err, when);
      ledger := ledger.(callers := ledger.callers - multiset{n});
      if status.idleSince < when {
        status := status.(idleSince := when);
      }
      if err.Unavailable? {
        if reporter == Some(n) {
          UpdateConnectionState(err, when, true, None, false);
        }
      }
    }

    method HealthArrives(newer: nat, calls: int)
      requires Valid() && Unlocked(Snapshot())
      modifies this
      ensures Valid() && Snapshot() == Step(old(Snapshot()), UpdateHealth(newer, calls))
      ensures status.err == old(status).err && sequence >= old(sequence)
    {
      InvStep(Snapshot(), UpdateHealth(newer, calls));
      assert channelsClosed <==> status.err == ErrClosed;
      hide Inv;
      if status.err == ErrClosed {
        return;
      }
      if sequence > newer {
        return;
      }
      status := status.(updated := clock, calls := calls);
      sequence := newer;
      Notify(None, false);
    }

    method ChangeConfig(newConfig: Config)
      requires Valid() && Unlocked(Snapshot())
      modifies this
      ensures Valid() && Snapshot() == Step(old(Snapshot()), UpdateConfig(newConfig))
      ensures config == newConfig
    {
      InvStep(Snapshot(), UpdateConfig(newConfig));
      assert channelsClosed <==> status.err == ErrClosed;
      hide Inv;
      config := newConfig;
      if status.err != ErrClosed {
        if |configQueue| >= CHAN_SIZE {
          sender := Some(ConfigSender(newConfig));
        } else {
          configQueue := configQueue + [newConfig];
        }
      }
    }

    /** Close, up to the wait for run. */
    method BeginClose()
      requires Valid() && Unlocked(Snapshot())
      modifies this
      ensures Valid() && Snapshot() == Step(old(Snapshot()), CloseBegin)
      ensures status.err == ErrClosed && channelsClosed
    {
      InvStep(Snapshot(), CloseBegin);
      assert channelsClosed <==> status.err == ErrClosed;
      hide Inv;
      if status.err == ErrClosed {
        return;
      }
      status := status.(err := ErrClosed);
      channelsClosed := true;
      closer := WaitingForRun;
    }

    /** Close, after run has exited. */
    method EndClose()
      requires Valid() && Unlocked(Snapshot()) && closer == WaitingForRun && loop.pc == Exited
      modifies this
      ensures Valid() && Snapshot() == Step(old(Snapshot()), CloseEnd)
      ensures reporter == None
      ensures old(reporter).Some? ==> ledger.closes == old(ledger.closes) + multiset{old(reporter).value}
    {
      InvStep(Snapshot(), CloseEnd);
      hide Inv;
      if reporter.Some? {
        ledger := ledger.(closes := ledger.closes + multiset{reporter.value});
        reporter := None;
      }
      closer := DoneClosing;
    }
  }

  lemma EndCallOf(s: State, n: nat, err: Err, when: int)
    requires Inv(s) && Unlocked(s) && n in s.callers && when <= s.clock
    ensures s.channelsClosed ==> s.status.err == ErrClosed
    ensures var idleSince := if s.status.idleSince < when then when else s.status.idleSince;
            var idle := s.(callers := s.callers - multiset{n}, status := s.status.(idleSince := idleSince));
            var changed := if s.status.err != err then when else s.status.changed;
            Unready(Retire(idle, None), false) == idle &&
            Step(s, EndCall(n, err, when)) ==
              if !err.Unavailable? || s.reporter != Some(n) then idle
              else if s.status.err == ErrClosed || s.status.updated > when then idle
              else SendStatus(idle.(status := idle.status.(err := err, updated := when, changed := changed)), None, false)
  {
    hide SendStatus;
  }

  lemma UnblockOf(s: State)
    requires Inv(s) && s.sender.Some?
    ensures !s.channelsClosed
    ensures s.sender.value.StatusSender? && s.sender.value.makeReady ==> s.ready > 0
    ensures s.sender.value.StatusSender? && |s.statusQueue| < CHAN_SIZE ==>
              Step(s, FinishSend) == SendStatus(s.(sender := None), s.sender.value.retired, s.sender.value.makeReady)
    ensures s.sender.value.ConfigSender? && |s.configQueue| < CHAN_SIZE ==>
              Step(s, FinishSend) == s.(sender := None, configQueue := s.configQueue + [s.sender.value.config])
  {
    hide SendStatus;
  }

  lemma UnblockStatus(s: State, retired: Option<nat>, makeReady: bool)
    requires s.sender == None && !s.channelsClosed && |s.statusQueue| < CHAN_SIZE
    ensures SendStatus(s, retired, makeReady).sender == None
  {
  }

  lemma InstallOf(s: State, n: nat)
    requires Inv(s) && Unlocked(s) && n < |s.attempts| && !s.attempts[n].applied
    ensures (s.channelsClosed <==> s.status.err == ErrClosed)
            && (s.attempts[n].makeReady ==> s.ready > 0) && s.attempts[n].err != ErrClosed
    ensures var a := s.attempts[n];
            var marked := s.(attempts := s.attempts[n := a.(applied := true)]);
            var r := if a.err == Online then Some(n) else None;
            Step(s, UpdateConnection(n)) ==
              if s.status.err == ErrClosed then Unready(Retire(marked, r), a.makeReady)
              else SendStatus(marked.(reporter := r, status := s.status.(err := a.err, updated := a.when)),
                              s.reporter, a.makeReady)
  {
  }
}
