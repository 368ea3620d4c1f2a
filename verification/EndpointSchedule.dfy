/** When run of helper/endpoint.go connects again, and what reaches it through its two channels. */
module EndpointSchedule {
  import opened Base
  import opened EndpointProtocol
  import opened EndpointTheorems

  // ---------------------------------------------------------------- what the sections under the mutex leave alone

  /** The configuration that a blocked UpdateConfig has still to send. */
  function WaitingConfig(s: State): seq<Config> {
    if s.sender.Some? && s.sender.value.ConfigSender? then [s.sender.value.config] else []
  }

  /** Sections that change the status leave run, both configurations and the way between them alone. */
  ghost predicate RunAlone(s: State, t: State) {
    t == s.(status := t.status, sequence := t.sequence, reporter := t.reporter, statusQueue := t.statusQueue,
            ready := t.ready, sender := t.sender, attempts := t.attempts, closing := t.closing,
            callers := t.callers, fault := t.fault)
  }

  lemma SendAlone(s: State, retired: Option<nat>, makeReady: bool)
    ensures RunAlone(s, SendStatus(s, retired, makeReady))
    ensures RunAlone(s, Unready(Retire(s, retired), makeReady))
    ensures s.sender == None ==> WaitingConfig(SendStatus(s, retired, makeReady)) == []
    ensures Unready(Retire(s, retired), makeReady).sender == s.sender
  {
  }

  lemma AloneChain(s: State, t: State, u: State)
    requires RunAlone(s, t) && RunAlone(t, u)
    ensures RunAlone(s, u)
  {
  }

  lemma InstallAlone(s: State, n: nat)
    ensures RunAlone(s, UpdateConnectionStep(s, n)) && WaitingConfig(UpdateConnectionStep(s, n)) == WaitingConfig(s)
  {
    hide SendStatus, Unready, Retire;
    if Unlocked(s) && n < |s.attempts| && !s.attempts[n].applied {
      var a := s.attempts[n];
      var marked := s.(attempts := s.attempts[n := a.(applied := true)]);
      var t := marked.(reporter := Reporter(s, n), status := s.status.(err := a.err, updated := a.when));
      assert RunAlone(s, marked) && RunAlone(s, t);
      var u := UpdateConnectionStep(s, n);
      assert u == if s.status.err == ErrClosed then Unready(Retire(marked, Reporter(s, n)), a.makeReady)
                  else SendStatus(t, s.reporter, a.makeReady);
      SendAlone(marked, Reporter(s, n), a.makeReady);
      SendAlone(t, s.reporter, a.makeReady);
      hide UpdateConnectionStep, RunAlone;
      AloneChain(s, if s.status.err == ErrClosed then marked else t, u);
    }
  }

  lemma FinishAlone(s: State)
    requires s.sender.Some? ==> !s.channelsClosed
    ensures var t := FinishSendStep(s);
            && RunAlone(s, t.(configQueue := s.configQueue))
            && t.configQueue + WaitingConfig(t) == s.configQueue + WaitingConfig(s)
  {
    hide SendStatus;
    if s.sender.Some? && s.sender.value.StatusSender? {
      var t := s.(sender := None);
      SendAlone(t, s.sender.value.retired, s.sender.value.makeReady);
      assert RunAlone(s, t);
      AloneChain(s, t, SendStatus(t, s.sender.value.retired, s.sender.value.makeReady));
    }
  }

  lemma HealthAlone(s: State, sequence: nat, calls: int)
    ensures var t := UpdateHealthStep(s, sequence, calls); RunAlone(s, t) && WaitingConfig(t) == WaitingConfig(s)
  {
    hide SendStatus;
    var t := s.(status := s.status.(updated := s.clock, calls := calls), sequence := sequence);
    SendAlone(t, None, false);
    AloneChain(s, t, SendStatus(t, None, false));
  }

  lemma CallAlone(s: State, n: nat, err: Err, when: int)
    ensures var t := EndCallStep(s, n, err, when); RunAlone(s, t) && WaitingConfig(t) == WaitingConfig(s)
  {
    hide SendStatus;
    var status := s.status.(idleSince := if s.status.idleSince < when then when else s.status.idleSince);
    var failed := status.(err := err, updated := when, changed := if status.err != err then when else status.changed);
    var t := s.(callers := s.callers - multiset{n}, status := failed);
    SendAlone(t, None, false);
    AloneChain(s, t, SendStatus(t, None, false));
  }

  // ---------------------------------------------------------------- what run has received

  predicate ReceivesConfig(s: State, a: Action) { a.RunConfig? && s.pc == Select && s.configQueue != [] }

  predicate ReceivesStatus(s: State, a: Action) { a.RunStatus? && s.pc == Select && s.statusQueue != [] }

  /** The configuration that run works with: the last one it received. */
  function InForce(config: Config, now: int, acts: seq<Action>): Config {
    if acts == [] then config
    else
      var s := Run(config, now, acts[..|acts| - 1]);
      if ReceivesConfig(s, acts[|acts| - 1]) then s.configQueue[0] else InForce(config, now, acts[..|acts| - 1])
  }

  /** Whether the last status that run received was online; it starts offline. */
  function SeenOnline(config: Config, now: int, acts: seq<Action>): bool {
    acts != [] &&
    var s := Run(config, now, acts[..|acts| - 1]);
    if ReceivesStatus(s, acts[|acts| - 1]) then s.statusQueue[0].err == Online
    else SeenOnline(config, now, acts[..|acts| - 1])
  }

  /** When the last connection attempt began. */
  function LastAttempt(config: Config, now: int, acts: seq<Action>): Option<int> {
    if acts == [] then None
    else
      var s := Run(config, now, acts[..|acts| - 1]);
      if acts[|acts| - 1].RunTick? && s.pc == Select && s.timer == Fired then Some(s.clock)
      else LastAttempt(config, now, acts[..|acts| - 1])
  }

  function Later(a: int, b: int): int { if a > b then a else b }

  /** When the next attempt is due after action `a`, if it was due at `due` before. */
  function NextDue(s: State, a: Action, inForce: Config, online: bool, attempt: Option<int>, due: int): int {
    if a.RunConnected? && s.pc == Connecting && a.err != ErrClosed then
      s.clock + if a.err == Online then inForce.online else inForce.offline
    else if ReceivesStatus(s, a) then
      if online && s.statusQueue[0].err != Online then s.clock else due
    else if ReceivesConfig(s, a) then
      var c := s.configQueue[0];
      if c.cache != inForce.cache || c.limit != inForce.limit then s.clock
      else if c.online == inForce.online && c.offline == inForce.offline then due
      else if attempt == None then s.clock
      else Later(s.clock, attempt.value + if online then c.online else c.offline)
    else due
  }

  /** When the next connection attempt is due: at once at first; an interval after an attempt has ended, which
      depends on its outcome; at once when an online endpoint is seen to go offline, or when caching or limiting
      change; and when only an interval changes, that interval after the last attempt began, or at once if that
      is past. */
  function Due(config: Config, now: int, acts: seq<Action>): int {
    if acts == [] then now
    else
      var before := acts[..|acts| - 1];
      NextDue(Run(config, now, before), acts[|acts| - 1], InForce(config, now, before),
              SeenOnline(config, now, before), LastAttempt(config, now, before), Due(config, now, before))
  }

  ghost predicate OnSchedule(s: State, inForce: Config, online: bool, attempt: Option<int>, due: int) {
    && s.runConfig == inForce
    && s.runOnline == online
    && s.connTimestamp == attempt
    && (s.pc == Select ==> s.timer == Armed(due) || (s.timer == Fired && due <= s.clock))
  }

  lemma HistoryNext(config: Config, now: int, acts: seq<Action>, a: Action)
    ensures var s := Run(config, now, acts);
            && InForce(config, now, acts + [a])
               == (if ReceivesConfig(s, a) then s.configQueue[0] else InForce(config, now, acts))
            && SeenOnline(config, now, acts + [a])
               == (if ReceivesStatus(s, a) then s.statusQueue[0].err == Online else SeenOnline(config, now, acts))
            && LastAttempt(config, now, acts + [a])
               == (if a.RunTick? && s.pc == Select && s.timer == Fired then Some(s.clock)
                   else LastAttempt(config, now, acts))
            && Due(config, now, acts + [a])
               == NextDue(s, a, InForce(config, now, acts), SeenOnline(config, now, acts),
                          LastAttempt(config, now, acts), Due(config, now, acts))
  {
    assert (acts + [a])[..|acts|] == acts;
  }

  lemma ConfigOnSchedule(s: State, inForce: Config, online: bool, attempt: Option<int>, due: int)
    requires TimerInv(s) && OnSchedule(s, inForce, online, attempt, due)
    ensures OnSchedule(RunConfigStep(s), if ReceivesConfig(s, RunConfig) then s.configQueue[0] else inForce,
                       online, attempt, NextDue(s, RunConfig, inForce, online, attempt, due))
  {
  }

  lemma StatusOnSchedule(s: State, inForce: Config, online: bool, attempt: Option<int>, due: int)
    requires TimerInv(s) && OnSchedule(s, inForce, online, attempt, due)
    ensures OnSchedule(RunStatusStep(s), inForce,
                       if ReceivesStatus(s, RunStatus) then s.statusQueue[0].err == Online else online,
                       attempt, NextDue(s, RunStatus, inForce, online, attempt, due))
  {
  }

  predicate ByRun(a: Action) { a.Tick? || a.TimerFires? || a.RunConfig? || a.RunStatus? || a.RunTick? || a.RunConnected? }

  /** Everything that the schedule depends on. */
  predicate SameRun(s: State, t: State) {
    && t.runConfig == s.runConfig && t.runOnline == s.runOnline && t.connTimestamp == s.connTimestamp
    && t.pc == s.pc && t.timer == s.timer && t.clock == s.clock
  }

  lemma OtherSameRun(s: State, a: Action)
    requires !ByRun(a) && (s.sender.Some? ==> !s.channelsClosed)
    ensures SameRun(s, Step(s, a))
  {
    hide UpdateConnectionStep, FinishSendStep, UpdateHealthStep, EndCallStep, WaitingConfig;
    match a
    case UpdateConnection(n) => InstallAlone(s, n);
    case FinishSend => FinishAlone(s);
    case UpdateHealth(sequence, calls) => HealthAlone(s, sequence, calls);
    case EndCall(n, err, when) => CallAlone(s, n, err, when);
    case _ =>
  }

  lemma OtherOnSchedule(s: State, a: Action, inForce: Config, online: bool, attempt: Option<int>, due: int)
    requires !ByRun(a) && SameRun(s, Step(s, a)) && OnSchedule(s, inForce, online, attempt, due)
    ensures OnSchedule(Step(s, a), inForce, online, attempt, due) && NextDue(s, a, inForce, online, attempt, due) == due
    ensures !ReceivesConfig(s, a) && !ReceivesStatus(s, a)
  {
    hide Step;
  }

  lemma RunOnSchedule(s: State, a: Action, inForce: Config, online: bool, attempt: Option<int>, due: int)
    requires s.fault == NoFault && TimerInv(s) && OnSchedule(s, inForce, online, attempt, due)
    requires a.Tick? || a.TimerFires? || a.RunTick? || a.RunConnected?
    ensures OnSchedule(Step(s, a), inForce, online,
                       if a.RunTick? && s.pc == Select && s.timer == Fired then Some(s.clock) else attempt,
                       NextDue(s, a, inForce, online, attempt, due))
  {
  }

  lemma StepOnSchedule(s: State, a: Action, inForce: Config, online: bool, attempt: Option<int>, due: int)
    requires Inv(s) && OnSchedule(s, inForce, online, attempt, due)
    ensures OnSchedule(Step(s, a),
                       if ReceivesConfig(s, a) then s.configQueue[0] else inForce,
                       if ReceivesStatus(s, a) then s.statusQueue[0].err == Online else online,
                       if a.RunTick? && s.pc == Select && s.timer == Fired then Some(s.clock) else attempt,
                       NextDue(s, a, inForce, online, attempt, due))
  {
    assert s.fault == NoFault && TimerInv(s) && (s.sender.Some? ==> !s.channelsClosed);
    hide RunConfigStep, RunStatusStep, Inv, TimerInv, OnSchedule, NextDue;
    if a.RunConfig? {
      ConfigOnSchedule(s, inForce, online, attempt, due);
    } else if a.RunStatus? {
      StatusOnSchedule(s, inForce, online, attempt, due);
    } else {
      hide Step;
      if ByRun(a) {
        RunOnSchedule(s, a, inForce, online, attempt, due);
      } else {
        OtherSameRun(s, a);
        OtherOnSchedule(s, a, inForce, online, attempt, due);
      }
    }
  }

  lemma StartsOnSchedule(config: Config, now: int)
    ensures OnSchedule(Run(config, now, []), InForce(config, now, []), SeenOnline(config, now, []),
                       LastAttempt(config, now, []), Due(config, now, []))
  {
  }

  lemma {:induction false} Scheduled(config: Config, now: int, acts: seq<Action>)
    ensures OnSchedule(Run(config, now, acts), InForce(config, now, acts), SeenOnline(config, now, acts),
                       LastAttempt(config, now, acts), Due(config, now, acts))
  {
    hide *;
    if acts == [] {
      StartsOnSchedule(config, now);
    } else {
      var before, a := acts[..|acts| - 1], acts[|acts| - 1];
      Scheduled(config, now, before);
      InvHolds(config, now, before);
      assert acts == before + [a];
      HistoryNext(config, now, before, a);
      Unroll(config, now, before, a);
      StepOnSchedule(Run(config, now, before), a, InForce(config, now, before), SeenOnline(config, now, before),
                     LastAttempt(config, now, before), Due(config, now, before));
    }
  }

  /** Over any run: while run waits in its select, the timer is armed for exactly the time at which the next
      attempt is due, or has fired then. */
  lemma ReconnectsWhenDue(config: Config, now: int, acts: seq<Action>)
    requires Run(config, now, acts).pc == Select
    ensures var s, due := Run(config, now, acts), Due(config, now, acts);
            s.timer == Armed(due) || (s.timer == Fired && due <= s.clock)
  {
    Scheduled(config, now, acts);
  }

  // ---------------------------------------------------------------- what goes through the channels

  predicate SendsConfig(s: State, a: Action) { a.UpdateConfig? && Unlocked(s) && s.status.err != ErrClosed }

  function SentConfigs(config: Config, now: int, acts: seq<Action>): seq<Config> {
    if acts == [] then []
    else
      var before, a := acts[..|acts| - 1], acts[|acts| - 1];
      SentConfigs(config, now, before) + if SendsConfig(Run(config, now, before), a) then [a.config] else []
  }

  function ReceivedConfigs(config: Config, now: int, acts: seq<Action>): seq<Config> {
    if acts == [] then []
    else
      var s := Run(config, now, acts[..|acts| - 1]);
      ReceivedConfigs(config, now, acts[..|acts| - 1])
      + if ReceivesConfig(s, acts[|acts| - 1]) then [s.configQueue[0]] else []
  }

  function OnTheWay(s: State): seq<Config> { s.configQueue + WaitingConfig(s) }

  lemma ConfigMoves(s: State, a: Action)
    requires Inv(s)
    ensures (if ReceivesConfig(s, a) then [s.configQueue[0]] else []) + OnTheWay(Step(s, a))
            == OnTheWay(s) + if SendsConfig(s, a) then [a.config] else []
  {
    assert s.fault == NoFault && (s.channelsClosed <==> s.status.err == ErrClosed);
    assert s.sender.Some? ==> !s.channelsClosed;
    hide RunConfigStep, UpdateConfigStep, Inv;
    if a.RunConfig? {
      ConfigReceived(s);
    } else if a.UpdateConfig? {
      ConfigSent(s, a.config);
    } else {
      OthersMoveNothing(s, a);
      hide Step, OnTheWay;
    }
  }

  lemma OthersMoveNothing(s: State, a: Action)
    requires !a.RunConfig? && !a.UpdateConfig? && (s.sender.Some? ==> !s.channelsClosed)
    ensures OnTheWay(Step(s, a)) == OnTheWay(s)
  {
    hide RunStatusStep, UpdateConnectionStep, FinishSendStep, UpdateHealthStep, EndCallStep;
    match a
    case RunStatus => RunStatusFrame(s);
    case UpdateConnection(n) => InstallAlone(s, n);
    case FinishSend => FinishAlone(s);
    case UpdateHealth(sequence, calls) => HealthAlone(s, sequence, calls);
    case EndCall(n, err, when) => CallAlone(s, n, err, when);
    case _ =>
  }

  lemma ConfigSent(s: State, config: Config)
    requires s.channelsClosed <==> s.status.err == ErrClosed
    ensures OnTheWay(UpdateConfigStep(s, config))
            == OnTheWay(s) + if SendsConfig(s, UpdateConfig(config)) then [config] else []
  {
  }

  lemma ConfigReceived(s: State)
    ensures var t := RunConfigStep(s);
            t.sender == s.sender &&
            t.configQueue == if ReceivesConfig(s, RunConfig) then s.configQueue[1..] else s.configQueue
  {
  }

  lemma ConfigsNext(config: Config, now: int, acts: seq<Action>, a: Action)
    ensures var s := Run(config, now, acts);
            && SentConfigs(config, now, acts + [a])
               == SentConfigs(config, now, acts) + (if SendsConfig(s, a) then [a.config] else [])
            && ReceivedConfigs(config, now, acts + [a])
               == ReceivedConfigs(config, now, acts) + (if ReceivesConfig(s, a) then [s.configQueue[0]] else [])
  {
    assert (acts + [a])[..|acts|] == acts;
  }

  lemma Regroup<T>(received: seq<T>, first: seq<T>, after: seq<T>, sent: seq<T>, before: seq<T>, new': seq<T>)
    requires received + before == sent && first + after == before + new'
    ensures received + first + after == sent + new'
  {
    calc {
      received + first + after;
      received + (first + after);
      received + (before + new');
      (received + before) + new';
      sent + new';
    }
  }

  /** Every configuration that UpdateConfig sends reaches run, once and in order. */
  lemma {:induction false} ConfigsInOrder(config: Config, now: int, acts: seq<Action>)
    ensures ReceivedConfigs(config, now, acts) + OnTheWay(Run(config, now, acts)) == SentConfigs(config, now, acts)
  {
    if acts == [] {
    } else {
      hide *;
      var before, a := acts[..|acts| - 1], acts[|acts| - 1];
      ConfigsInOrder(config, now, before);
      InvHolds(config, now, before);
      assert acts == before + [a];
      ConfigsNext(config, now, before, a);
      Unroll(config, now, before, a);
      var s := Run(config, now, before);
      ConfigMoves(s, a);
      Regroup(ReceivedConfigs(config, now, before), if ReceivesConfig(s, a) then [s.configQueue[0]] else [],
              OnTheWay(Step(s, a)), SentConfigs(config, now, before), OnTheWay(s),
              if SendsConfig(s, a) then [a.config] else []);
    }
  }

  /** The configuration that the endpoint shows, and the last one on its way to run, are the last one given to
      UpdateConfig. */
  function LastConfig(config: Config, now: int, acts: seq<Action>): Config {
    if acts == [] then config
    else
      var before, a := acts[..|acts| - 1], acts[|acts| - 1];
      if a.UpdateConfig? && Unlocked(Run(config, now, before)) then a.config else LastConfig(config, now, before)
  }

  ghost predicate Latest(s: State, config: Config) {
    && s.config == config
    && (s.status.err != ErrClosed ==> ([s.runConfig] + OnTheWay(s))[|OnTheWay(s)|] == config)
  }

  lemma LatestStep(s: State, a: Action, config: Config)
    requires Inv(s) && Latest(s, config)
    ensures Latest(Step(s, a), if a.UpdateConfig? && Unlocked(s) then a.config else config)
  {
    ConfigMoves(s, a);
    ConfigAndErr(s, a);
    var t := Step(s, a);
    hide Inv, Step;
    if t.status.err != ErrClosed {
      var first := if ReceivesConfig(s, a) then [s.configQueue[0]] else [];
      var new' := if SendsConfig(s, a) then [a.config] else [];
      assert first + OnTheWay(t) == OnTheWay(s) + new';
      LastStays(s.runConfig, t.runConfig, OnTheWay(s), OnTheWay(t), first, new');
    }
  }

  lemma LastStays(x: Config, y: Config, before: seq<Config>, after: seq<Config>, first: seq<Config>, new': seq<Config>)
    requires first + after == before + new' && |first| <= 1 && |new'| <= 1
    requires y == if first == [] then x else first[0]
    ensures ([y] + after)[|after|] == if new' == [] then ([x] + before)[|before|] else new'[0]
  {
    var all := first + after;
    if all != [] {
      assert all[|all| - 1] == if new' == [] then before[|before| - 1] else new'[0];
      assert after != [] ==> after[|after| - 1] == all[|all| - 1];
      assert after == [] ==> all == first;
    }
  }

  lemma ConfigAndErr(s: State, a: Action)
    requires Inv(s)
    ensures Step(s, a).config == if a.UpdateConfig? && Unlocked(s) then a.config else s.config
    ensures Step(s, a).runConfig == if ReceivesConfig(s, a) then s.configQueue[0] else s.runConfig
    ensures s.status.err == ErrClosed ==> Step(s, a).status.err == ErrClosed
  {
    ClosedErr(s, a);
    assert s.fault == NoFault && (s.channelsClosed <==> s.status.err == ErrClosed);
    assert s.sender.Some? ==> !s.channelsClosed;
    hide RunConfigStep, RunStatusStep, UpdateConnectionStep, FinishSendStep, UpdateHealthStep, EndCallStep;
    hide Inv, TimerInv, ReadyInv, StatusInv;
    match a
    case RunConfig => ConfigFields(s);
    case RunStatus => RunStatusFrame(s);
    case UpdateConnection(n) => InstallAlone(s, n);
    case FinishSend => FinishAlone(s);
    case UpdateHealth(sequence, calls) => HealthAlone(s, sequence, calls);
    case EndCall(n, err, when) => CallAlone(s, n, err, when);
    case _ =>
  }

  lemma ClosedErr(s: State, a: Action)
    requires Inv(s)
    ensures s.status.err == ErrClosed ==> Step(s, a).status.err == ErrClosed
  {
    if s.status.err == ErrClosed {
      ClosedStep(s, a);
    }
  }

  lemma ConfigFields(s: State)
    ensures RunConfigStep(s).config == s.config
    ensures RunConfigStep(s).runConfig == if ReceivesConfig(s, RunConfig) then s.configQueue[0] else s.runConfig
  {
  }

  lemma LastConfigNext(config: Config, now: int, acts: seq<Action>, a: Action)
    ensures LastConfig(config, now, acts + [a])
            == if a.UpdateConfig? && Unlocked(Run(config, now, acts)) then a.config else LastConfig(config, now, acts)
  {
    assert (acts + [a])[..|acts|] == acts;
  }

  lemma {:induction false} LatestHolds(config: Config, now: int, acts: seq<Action>)
    ensures Latest(Run(config, now, acts), LastConfig(config, now, acts))
  {
    if acts == [] {
    } else {
      hide *;
      var before, a := acts[..|acts| - 1], acts[|acts| - 1];
      LatestHolds(config, now, before);
      InvHolds(config, now, before);
      assert acts == before + [a];
      LastConfigNext(config, now, before, a);
      Unroll(config, now, before, a);
      LatestStep(Run(config, now, before), a, LastConfig(config, now, before));
    }
  }

  /** Config returns the last configuration given to UpdateConfig; and once nothing is on its way to it, run of
      an open endpoint works with that one too. */
  lemma RunUsesLastConfig(config: Config, now: int, acts: seq<Action>)
    ensures Run(config, now, acts).config == LastConfig(config, now, acts)
    ensures var s := Run(config, now, acts);
            s.status.err != ErrClosed && s.configQueue == [] && WaitingConfig(s) == [] ==>
              s.runConfig == LastConfig(config, now, acts)
  {
    LatestHolds(config, now, acts);
  }
}
