/** What helper/endpoint.go promises, over every interleaving of run, its goroutines and its callers. */
module EndpointTheorems {
  import opened Base
  import opened EndpointProtocol

  lemma Unroll(config: Config, now: int, acts: seq<Action>, a: Action)
    ensures Run(config, now, acts + [a]) == Step(Run(config, now, acts), a)
  {
    assert (acts + [a])[..|acts|] == acts;
  }

  function Longest(c: Config): int {
    if c.online > c.offline then c.online else c.offline
  }

  // ---------------------------------------------------------------- state and timer

  ghost predicate TimerInv(s: State) {
    && (s.pc == Select ==> s.timer != Spent)
    && (s.pc == Connecting ==> s.timer == Spent && s.connTimestamp.Some?)
    && (s.connTimestamp.Some? ==> s.connTimestamp.value <= s.clock)
    && (s.timer.Armed? ==> s.timer.at <= s.clock || s.timer.at <= s.clock + Longest(s.runConfig))
  }

  ghost predicate StatusInv(s: State) {
    && (s.status.err == Online ==> s.reporter.Some?)
    && (s.channelsClosed <==> s.status.err == ErrClosed)
    && (s.channelsClosed <==> s.closer != NotClosed)
    && (s.pc == Exited ==> s.channelsClosed)
    && (s.closer == DoneClosing ==> s.reporter == None && s.pc == Exited)
    && (s.sender.Some? ==> !s.channelsClosed)
    && |s.statusQueue| <= CHAN_SIZE && |s.configQueue| <= CHAN_SIZE
  }

  ghost predicate ReadyInv(s: State) {
    && (forall n :: 0 <= n < |s.attempts| ==>
          && (s.attempts[n].makeReady <==> n == 0)
          && s.attempts[n].err != ErrClosed)
    && (s.sender.Some? && s.sender.value.StatusSender? && s.sender.value.makeReady ==>
          s.attempts != [] && s.attempts[0].applied)
    && (var waiting := s.attempts == [] || !s.attempts[0].applied
                       || (s.sender.Some? && s.sender.value.StatusSender? && s.sender.value.makeReady);
        s.ready == if waiting then 1 else 0)
  }

  ghost predicate Inv(s: State) {
    s.fault == NoFault && TimerInv(s) && StatusInv(s) && ReadyInv(s)
  }

  // ---------------------------------------------------------------- what the steps leave alone

  lemma ResetFrame(s: State, at: int)
    ensures ResetActive(s, at) == s.(timer := ResetActive(s, at).timer, fault := ResetActive(s, at).fault)
    ensures ResetConnection(s) == s.(timer := ResetConnection(s).timer, fault := ResetConnection(s).fault)
  {
  }

  lemma RunConfigFrame(s: State)
    ensures var t := RunConfigStep(s);
            && t == s.(pc := t.pc, configQueue := t.configQueue, runConfig := t.runConfig, timer := t.timer, fault := t.fault)
            && |t.configQueue| <= |s.configQueue|
            && (s.pc == Select && s.configQueue != [] ==> t.pc == Select && |t.configQueue| == |s.configQueue| - 1)
  {
    if s.pc == Select && s.configQueue != [] {
      var t := s.(configQueue := s.configQueue[1..], runConfig := s.configQueue[0]);
      ResetFrame(t, t.clock);
      hide ResetActive, ResetConnection;
    }
  }

  lemma RunStatusFrame(s: State)
    ensures var t := RunStatusStep(s);
            && t == s.(pc := t.pc, statusQueue := t.statusQueue, runOnline := t.runOnline, timer := t.timer, fault := t.fault)
            && |t.statusQueue| <= |s.statusQueue|
            && (s.pc == Select && s.statusQueue != [] ==> |t.statusQueue| == |s.statusQueue| - 1)
  {
  }

  lemma SendFrame(s: State, retired: Option<nat>, makeReady: bool)
    ensures var t := SendStatus(s, retired, makeReady); t.status == s.status && t.reporter == s.reporter
    ensures var t := Unready(Retire(s, retired), makeReady); t.status == s.status && t.reporter == s.reporter
  {
  }

  lemma ResetKeepsTimer(s: State, at: int)
    requires s.pc == Select && s.timer != Spent && s.fault == NoFault
    requires s.connTimestamp.Some? ==> s.connTimestamp.value <= s.clock
    requires at <= s.clock || at <= s.clock + Longest(s.runConfig)
    ensures TimerInv(ResetActive(s, at)) && ResetActive(s, at) == s.(timer := Armed(at))
  {
  }

  lemma ResetConnectionKeepsTimer(s: State)
    requires s.pc == Select && s.timer != Spent && s.fault == NoFault
    requires s.connTimestamp.Some? ==> s.connTimestamp.value <= s.clock
    ensures TimerInv(ResetConnection(s)) && ResetConnection(s) == s.(timer := ResetConnection(s).timer)
  {
  }

  lemma TimerFrame(s: State, t: State)
    requires Inv(s) && TimerInv(t)
    requires t == s.(configQueue := t.configQueue, runConfig := t.runConfig,
                     statusQueue := t.statusQueue, runOnline := t.runOnline, timer := t.timer)
    requires |t.configQueue| <= CHAN_SIZE && |t.statusQueue| <= CHAN_SIZE
    ensures Inv(t)
  {
  }

  lemma ReceiveConfigKeeps(s: State)
    requires Inv(s)
    ensures Inv(RunConfigStep(s))
  {
    if s.pc == Select && s.configQueue != [] {
      var t := s.(configQueue := s.configQueue[1..], runConfig := s.configQueue[0]);
      hide ResetActive, ResetConnection, ReadyInv;
      ResetKeepsTimer(t, t.clock);
      ResetConnectionKeepsTimer(t);
      TimerFrame(s, RunConfigStep(s));
    }
  }

  lemma ReceiveStatusKeeps(s: State)
    requires Inv(s)
    ensures Inv(RunStatusStep(s))
  {
    if s.pc == Select && s.statusQueue != [] {
      var t := s.(statusQueue := s.statusQueue[1..], runOnline := s.statusQueue[0].err == Online);
      ResetKeepsTimer(t, t.clock);
      hide ResetActive, ReadyInv;
      TimerFrame(s, RunStatusStep(s));
    }
  }

  lemma ConnectKeeps(s: State, err: Err)
    requires Inv(s)
    ensures Inv(RunTickStep(s)) && Inv(RunConnectedStep(s, err))
  {
    hide ReadyInv;
    assert ReadyInv(RunTickStep(s)) && ReadyInv(RunConnectedStep(s, err)) by { ConnectKeepsReady(s, err); }
  }

  lemma ConnectKeepsReady(s: State, err: Err)
    requires ReadyInv(s)
    ensures ReadyInv(RunTickStep(s)) && ReadyInv(RunConnectedStep(s, err))
  {
  }

  lemma ClockKeeps(s: State, n: nat)
    requires Inv(s)
    ensures Inv(s.(clock := s.clock + n))
    ensures s.timer.Armed? && s.timer.at <= s.clock ==> Inv(s.(timer := Fired))
  {
  }

  /** Before a status send, makeReady says whether this section is the one that owes ready.Done. */
  ghost predicate Owes(t: State, makeReady: bool) {
    && (forall n :: 0 <= n < |t.attempts| ==>
          (t.attempts[n].makeReady <==> n == 0) && t.attempts[n].err != ErrClosed)
    && if makeReady then t.attempts != [] && t.attempts[0].applied && t.ready == 1
       else t.ready == if t.attempts == [] || !t.attempts[0].applied then 1 else 0
  }

  lemma SendKeepsReady(t: State, retired: Option<nat>, makeReady: bool)
    requires t.sender == None && !t.channelsClosed && Owes(t, makeReady)
    ensures ReadyInv(SendStatus(t, retired, makeReady))
    ensures SendStatus(t, retired, makeReady).fault == t.fault
  {
  }

  lemma SendKeeps(t: State, retired: Option<nat>, makeReady: bool)
    requires t.fault == NoFault && TimerInv(t) && StatusInv(t) && t.sender == None && !t.channelsClosed
    requires Owes(t, makeReady)
    ensures Inv(SendStatus(t, retired, makeReady))
  {
    SendKeepsReady(t, retired, makeReady);
    hide ReadyInv, Owes;
  }

  lemma ConfigKeeps(s: State, config: Config)
    requires Inv(s)
    ensures Inv(UpdateConfigStep(s, config))
  {
  }

  lemma CallKeeps(s: State, unresponsive: bool)
    requires Inv(s)
    ensures Inv(BeginCallStep(s, unresponsive))
  {
  }

  lemma CloseKeeps(s: State)
    requires Inv(s)
    ensures Inv(CloseBeginStep(s)) && Inv(CloseEndStep(s))
  {
  }

  lemma RetireKeeps(s: State, closing: multiset<nat>, closes: multiset<nat>)
    requires Inv(s)
    ensures Inv(s.(closing := closing, closes := closes))
  {
  }

  lemma HealthKeeps(s: State, sequence: nat, calls: int)
    requires Inv(s)
    ensures Inv(UpdateHealthStep(s, sequence, calls))
  {
    if Unlocked(s) && s.status.err != ErrClosed && s.sequence <= sequence {
      SendKeeps(s.(status := s.status.(updated := s.clock, calls := calls), sequence := sequence), None, false);
    }
  }

  lemma ConnectionOwes(s: State, n: nat)
    requires ReadyInv(s) && s.sender == None && n < |s.attempts| && !s.attempts[n].applied
    ensures Owes(s.(attempts := s.attempts[n := s.attempts[n].(applied := true)]), s.attempts[n].makeReady)
  {
  }

  lemma LateConnectionKeeps(s: State, n: nat)
    requires Inv(s) && Unlocked(s) && n < |s.attempts| && !s.attempts[n].applied && s.status.err == ErrClosed
    ensures Inv(UpdateConnectionStep(s, n))
  {
    var a := s.attempts[n];
    ConnectionOwes(s, n);
    var marked := s.(attempts := s.attempts[n := a.(applied := true)]);
    RetireReady(marked, Reporter(s, n), a.makeReady);
    hide Owes, ReadyInv, SendStatus, Unready, Retire;
  }

  lemma RetireReady(t: State, retired: Option<nat>, makeReady: bool)
    requires t.sender == None && Owes(t, makeReady)
    ensures var u := Unready(Retire(t, retired), makeReady);
            ReadyInv(u) && u == t.(closing := u.closing, ready := u.ready)
  {
  }

  lemma ConnectionKeeps(s: State, n: nat)
    requires Inv(s)
    ensures Inv(UpdateConnectionStep(s, n))
  {
    if Unlocked(s) && n < |s.attempts| && !s.attempts[n].applied {
      if s.status.err == ErrClosed {
        LateConnectionKeeps(s, n);
      } else {
        InstallKeeps(s, n);
      }
    }
  }

  lemma InstallKeeps(s: State, n: nat)
    requires Inv(s) && Unlocked(s) && n < |s.attempts| && !s.attempts[n].applied && s.status.err != ErrClosed
    ensures Inv(UpdateConnectionStep(s, n))
  {
    var a := s.attempts[n];
    var marked := s.(attempts := s.attempts[n := a.(applied := true)]);
    ConnectionOwes(s, n);
    var t := marked.(reporter := Reporter(s, n), status := s.status.(err := a.err, updated := a.when));
    assert a.err != ErrClosed;
    assert TimerInv(t) && StatusInv(t) && Owes(t, a.makeReady);
    assert UpdateConnectionStep(s, n) == SendStatus(t, s.reporter, a.makeReady);
    hide Inv, TimerInv, StatusInv, Owes, UpdateConnectionStep;
    SendKeeps(t, s.reporter, a.makeReady);
  }

  lemma FinishKeeps(s: State)
    requires Inv(s)
    ensures Inv(FinishSendStep(s))
  {
    if s.sender.Some? && s.sender.value.StatusSender? {
      SendKeeps(s.(sender := None), s.sender.value.retired, s.sender.value.makeReady);
    }
  }

  lemma EndCallKeeps(s: State, n: nat, err: Err, when: int)
    requires Inv(s)
    ensures Inv(EndCallStep(s, n, err, when))
  {
    if Unlocked(s) && n in s.callers && when <= s.clock {
      var status := s.status.(idleSince := if s.status.idleSince < when then when else s.status.idleSince);
      var failed := status.(err := err, updated := when,
                            changed := if status.err != err then when else status.changed);
      if err.Unavailable? && s.reporter == Some(n) && s.status.err != ErrClosed {
        SendKeeps(s.(callers := s.callers - multiset{n}, status := failed), None, false);
      }
      hide SendStatus;
    }
  }

  lemma InvStep(s: State, a: Action)
    requires Inv(s)
    ensures Inv(Step(s, a))
  {
    hide Inv, RunConfigStep, RunStatusStep, RunTickStep, RunConnectedStep, UpdateConnectionStep, FinishSendStep;
    hide UpdateConfigStep, UpdateHealthStep, BeginCallStep, EndCallStep, CloseBeginStep, CloseEndStep;
    assert s.fault == NoFault by { InvMeansNoFault(s); }
    match a
    case UpdateConnection(n) => ConnectionKeeps(s, n);
    case FinishSend => FinishKeeps(s);
    case UpdateHealth(sequence, calls) => HealthKeeps(s, sequence, calls);
    case EndCall(n, err, when) => EndCallKeeps(s, n, err, when);
    case UpdateConfig(config) => ConfigKeeps(s, config);
    case BeginCall(unresponsive) => CallKeeps(s, unresponsive);
    case CloseBegin => CloseKeeps(s);
    case CloseEnd => CloseKeeps(s);
    case RetireClose(n) => RetireKeeps(s, s.closing - multiset{n}, s.closes + multiset{n});
    case RunConfig => ReceiveConfigKeeps(s);
    case RunStatus => ReceiveStatusKeeps(s);
    case RunTick => ConnectKeeps(s, OtherErr(0));
    case RunConnected(err) => ConnectKeeps(s, err);
    case Tick(n) => ClockKeeps(s, n);
    case TimerFires => ClockKeeps(s, 0);
  }

  lemma InvMeansNoFault(s: State)
    requires Inv(s)
    ensures s.fault == NoFault
  {
  }

  lemma {:induction false} InvHolds(config: Config, now: int, acts: seq<Action>)
    ensures Inv(Run(config, now, acts))
  {
    hide Step;
    if acts == [] {
    } else {
      hide Inv;
      InvHolds(config, now, acts[..|acts| - 1]);
      InvStep(Run(config, now, acts[..|acts| - 1]), acts[|acts| - 1]);
    }
  }

  /** No send reaches a closed channel, no timer drain hangs, no call meets a nil reporter, and ready is
      done once; a closed endpoint has stopped sending, and an online one has a reporter. */
  lemma EndpointIsSafe(config: Config, now: int, acts: seq<Action>)
    ensures var s := Run(config, now, acts);
            && s.fault == NoFault
            && (s.status.err == Online ==> s.reporter.Some?)
            && (s.channelsClosed <==> s.status.err == ErrClosed)
            && (s.ready == 0 || s.ready == 1)
  {
    InvHolds(config, now, acts);
  }

  /** Whenever run waits in its select, a reconnection is scheduled: the timer has fired, or it fires no
      later than the longer of the two intervals from now. */
  lemma ReconnectionIsScheduled(config: Config, now: int, acts: seq<Action>)
    requires Run(config, now, acts).pc == Select
    ensures var s := Run(config, now, acts);
            || s.timer == Fired
            || (s.timer.Armed? && (s.timer.at <= s.clock || s.timer.at <= s.clock + Longest(s.runConfig)))
  {
    InvHolds(config, now, acts);
  }

  // ---------------------------------------------------------------- closing

  ghost predicate Quiet(s: State, t: State) {
    && t.status.err == ErrClosed
    && |t.statusQueue| <= |s.statusQueue| && |t.configQueue| <= |s.configQueue|
    && (t.reporter == s.reporter || t.reporter == None)
  }

  lemma ClosedStep(s: State, a: Action)
    requires StatusInv(s) && s.status.err == ErrClosed
    ensures Quiet(s, Step(s, a))
  {
    RunConfigFrame(s);
    RunStatusFrame(s);
    hide RunConfigStep, RunStatusStep;
  }

  /** ErrClosed is never left again, and nothing is sent or installed any more. */
  lemma {:induction false} ClosedForever(config: Config, now: int, acts: seq<Action>, more: seq<Action>)
    requires Run(config, now, acts).status.err == ErrClosed
    ensures Quiet(Run(config, now, acts), Run(config, now, acts + more))
  {
    hide Step, Run, TimerInv, ReadyInv;
    if more == [] {
      assert acts + more == acts;
    } else {
      var before, a := acts + more[..|more| - 1], more[|more| - 1];
      ClosedForever(config, now, acts, more[..|more| - 1]);
      assert acts + more == before + [a];
      Unroll(config, now, before, a);
      InvHolds(config, now, before);
      ClosedStep(Run(config, now, before), a);
    }
  }

  // ---------------------------------------------------------------- who changes the error

  /** Err changes only by Close, by installing a connection attempt, or by an unavailable-server failure of
      the current connection that is not older than the state.  The last is the only one that sets Changed,
      although Changed is documented as the last time the state changed. */
  lemma WhoChangesErr(s: State, a: Action)
    requires s.fault == NoFault && Step(s, a).status.err != s.status.err
    ensures || (a.CloseBegin? && Step(s, a).status == s.status.(err := ErrClosed))
            || (a.UpdateConnection? && a.n < |s.attempts| && !s.attempts[a.n].applied
                && Step(s, a).status.err == s.attempts[a.n].err && Step(s, a).status.changed == s.status.changed)
            || (a.EndCall? && a.err.Unavailable? && s.reporter == Some(a.n) && s.status.updated <= a.when
                && Step(s, a).status.err == a.err && Step(s, a).status.changed == a.when)
  {
    match a
    case UpdateConnection(n) => InstallSetsErr(s, n);
    case EndCall(n, err, when) => FailureSetsErr(s, n, err, when);
    case _ =>
      hide UpdateConnectionStep, EndCallStep;
  }

  /** The first connection, made five units after the endpoint: Err changes and Changed does not. */
  lemma InstallLeavesChanged(config: Config, now: int) returns (acts: seq<Action>)
    ensures Run(config, now, acts).status == Status(ErrDisconnected, now, now, 0, 0)
    ensures Run(config, now, acts + [UpdateConnection(0)]).status == Status(Online, now, now + 5, 0, 0)
  {
    hide Step;
    var s := Init(config, now);
    acts := [Tick(5)] + [TimerFires] + [RunTick] + [RunConnected(Online)];
    assert Run(config, now, []) == s;
    Unroll(config, now, [], Tick(5));
    assert [] + [Tick(5)] == [Tick(5)];
    Unroll(config, now, [Tick(5)], TimerFires);
    Unroll(config, now, [Tick(5)] + [TimerFires], RunTick);
    Unroll(config, now, [Tick(5)] + [TimerFires] + [RunTick], RunConnected(Online));
    Unroll(config, now, acts, UpdateConnection(0));
    hide Run;
    FirstAttempt(s, config, now);
    FirstInstall(Run(config, now, acts), now);
  }

  lemma FirstAttempt(s: State, config: Config, now: int)
    requires s == Init(config, now)
    ensures var t := Step(Step(Step(Step(s, Tick(5)), TimerFires), RunTick), RunConnected(Online));
            t == s.(clock := now + 5, connTimestamp := Some(now + 5), attempts := [Attempt(Online, now + 5, true, false)],
                    timer := Armed(now + 5 + config.online))
  {
    var t := s.(clock := now + 5, timer := Fired);
    assert Step(Step(s, Tick(5)), TimerFires) == t;
    var u := t.(pc := Connecting, timer := Spent, connTimestamp := Some(now + 5));
    assert Step(t, RunTick) == u;
    hide Unready;
  }

  lemma FirstInstall(s: State, now: int)
    requires s.fault == NoFault && s.sender == None && !s.channelsClosed && s.statusQueue == []
    requires s.status == Status(ErrDisconnected, now, now, 0, 0)
    requires s.attempts == [Attempt(Online, now + 5, true, false)]
    ensures Step(s, UpdateConnection(0)).status == Status(Online, now, now + 5, 0, 0)
  {
    var a := s.attempts[0];
    var marked := s.(attempts := s.attempts[0 := a.(applied := true)]);
    var t := marked.(reporter := Some(0), status := s.status.(err := a.err, updated := a.when));
    SendFrame(t, s.reporter, true);
    hide SendStatus;
  }

  lemma InstallSetsErr(s: State, n: nat)
    ensures var t := UpdateConnectionStep(s, n);
            && t.status.changed == s.status.changed
            && (t.status.err != s.status.err ==>
                  && n < |s.attempts| && !s.attempts[n].applied
                  && t.status.err == s.attempts[n].err && t.reporter == Reporter(s, n))
  {
    hide SendStatus, Unready, Retire;
    if Unlocked(s) && n < |s.attempts| && !s.attempts[n].applied {
      var a := s.attempts[n];
      var marked := s.(attempts := s.attempts[n := a.(applied := true)]);
      var t := marked.(reporter := Reporter(s, n), status := s.status.(err := a.err, updated := a.when));
      SendFrame(marked, Reporter(s, n), a.makeReady);
      SendFrame(t, s.reporter, a.makeReady);
    }
  }

  lemma FailureSetsErr(s: State, n: nat, err: Err, when: int)
    ensures var t := EndCallStep(s, n, err, when);
            t.status.err != s.status.err ==>
              && err.Unavailable? && s.reporter == Some(n) && s.status.updated <= when
              && t.status.err == err && t.status.changed == when
  {
  }

  /** An endpoint comes online only by installing the reporter of a new successful connection. */
  lemma OnlineOnlyByNewConnection(s: State, a: Action)
    requires s.fault == NoFault && s.status.err != Online && Step(s, a).status.err == Online
    ensures a.UpdateConnection? && a.n < |s.attempts| && !s.attempts[a.n].applied
    ensures s.attempts[a.n].err == Online && Step(s, a).reporter == Some(a.n)
  {
    WhoChangesErr(s, a);
    match a
    case UpdateConnection(n) => InstallSetsErr(s, n);
    case _ =>
  }

  /** A call's failure counts exactly if it is an unavailable-server error other than the present one, on the
      current reporter of an endpoint that is not closed, and no older than the state. */
  lemma FailureCountsExactly(config: Config, now: int, acts: seq<Action>, n: nat, err: Err, when: int)
    requires var s := Run(config, now, acts); Unlocked(s) && n in s.callers && when <= s.clock
    ensures var s, t := Run(config, now, acts), Run(config, now, acts + [EndCall(n, err, when)]);
            t.status.err != s.status.err <==>
              && err.Unavailable? && err != s.status.err
              && s.reporter == Some(n) && s.status.err != ErrClosed && s.status.updated <= when
  {
    InvHolds(config, now, acts);
    Unroll(config, now, acts, EndCall(n, err, when));
    hide Run;
    var s := Run(config, now, acts);
    var status := s.status.(idleSince := if s.status.idleSince < when then when else s.status.idleSince);
    var failed := status.(err := err, updated := when, changed := if status.err != err then when else status.changed);
    SendFrame(s.(callers := s.callers - multiset{n}, status := failed), None, false);
    hide SendStatus, TimerInv, StatusInv, ReadyInv;
  }

  /** The failure of a call on a connection that has been replaced changes nothing but the idle time. */
  lemma StaleFailureIsIgnored(s: State, n: nat, err: Err, when: int)
    requires s.reporter != Some(n)
    ensures var t := Step(s, EndCall(n, err, when));
            t.(callers := s.callers, status := t.status.(idleSince := s.status.idleSince)) == s
  {
  }
}
