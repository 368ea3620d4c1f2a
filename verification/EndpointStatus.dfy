/** The status of helper/endpoint.go over a run: what it is, and that run learns of it. */
module EndpointStatus {
  import opened Base
  import opened EndpointProtocol
  import opened EndpointTheorems
  import opened EndpointSchedule
  import opened EndpointOwnership

  // ---------------------------------------------------------------- the status as a fold over the run

  predicate Installs(s: State, a: Action) {
    a.UpdateConnection? && Unlocked(s) && a.n < |s.attempts| && !s.attempts[a.n].applied && s.status.err != ErrClosed
  }

  /** A health update counts unless the endpoint is closed or a newer one has come. */
  predicate HealthCounts(s: State, a: Action) {
    a.UpdateHealth? && Unlocked(s) && s.status.err != ErrClosed && s.sequence <= a.sequence
  }

  predicate CallEnds(s: State, a: Action) { a.EndCall? && Unlocked(s) && a.n in s.callers && a.when <= s.clock }

  /** A call that found the server of the current connection unavailable, no earlier than the last update. */
  predicate CallFails(s: State, a: Action) {
    CallEnds(s, a) && a.err.Unavailable? && s.reporter == Some(a.n) && s.status.err != ErrClosed
    && s.status.updated <= a.when
  }

  predicate Closes(s: State, a: Action) { a.CloseBegin? && Unlocked(s) }

  /** Err is what the last event that decides it says. */
  function ErrOf(config: Config, now: int, acts: seq<Action>): Err {
    if acts == [] then ErrDisconnected
    else
      var before, a := acts[..|acts| - 1], acts[|acts| - 1];
      var s := Run(config, now, before);
      if Installs(s, a) then s.attempts[a.n].err
      else if CallFails(s, a) then a.err
      else if Closes(s, a) then ErrClosed
      else ErrOf(config, now, before)
  }

  /** Updated is the time of the last connection, health update or failed call. */
  function UpdatedOf(config: Config, now: int, acts: seq<Action>): int {
    if acts == [] then now
    else
      var before, a := acts[..|acts| - 1], acts[|acts| - 1];
      var s := Run(config, now, before);
      if Installs(s, a) then s.attempts[a.n].when
      else if HealthCounts(s, a) then s.clock
      else if CallFails(s, a) then a.when
      else UpdatedOf(config, now, before)
  }

  /** IdleSince is the latest time at which a call was over. */
  function IdleOf(config: Config, now: int, acts: seq<Action>): int {
    if acts == [] then 0
    else
      var before, a := acts[..|acts| - 1], acts[|acts| - 1];
      if CallEnds(Run(config, now, before), a) then Later(IdleOf(config, now, before), a.when)
      else IdleOf(config, now, before)
  }

  /** The sequence number and the calls of the last health update that counted. */
  function HealthOf(config: Config, now: int, acts: seq<Action>): (nat, int) {
    if acts == [] then (0, 0)
    else
      var before, a := acts[..|acts| - 1], acts[|acts| - 1];
      if HealthCounts(Run(config, now, before), a) then (a.sequence, a.calls) else HealthOf(config, now, before)
  }

  lemma FoldNext(config: Config, now: int, acts: seq<Action>, a: Action)
    ensures var s := Run(config, now, acts);
            && ErrOf(config, now, acts + [a])
               == (if Installs(s, a) then s.attempts[a.n].err else if CallFails(s, a) then a.err
                   else if Closes(s, a) then ErrClosed else ErrOf(config, now, acts))
            && UpdatedOf(config, now, acts + [a])
               == (if Installs(s, a) then s.attempts[a.n].when else if HealthCounts(s, a) then s.clock
                   else if CallFails(s, a) then a.when else UpdatedOf(config, now, acts))
            && IdleOf(config, now, acts + [a])
               == (if CallEnds(s, a) then Later(IdleOf(config, now, acts), a.when) else IdleOf(config, now, acts))
            && HealthOf(config, now, acts + [a])
               == (if HealthCounts(s, a) then (a.sequence, a.calls) else HealthOf(config, now, acts))
  {
    assert (acts + [a])[..|acts|] == acts;
  }

  lemma InstallStatus(s: State, a: Action)
    requires a.UpdateConnection?
    ensures var t := UpdateConnectionStep(s, a.n);
            && t.sequence == s.sequence
            && t.status == if Installs(s, a) then s.status.(err := s.attempts[a.n].err, updated := s.attempts[a.n].when)
                           else s.status
  {
    hide SendStatus, Unready, Retire;
    if Unlocked(s) && a.n < |s.attempts| && !s.attempts[a.n].applied {
      var at := s.attempts[a.n];
      var marked := s.(attempts := s.attempts[a.n := at.(applied := true)]);
      var t := marked.(reporter := Reporter(s, a.n), status := s.status.(err := at.err, updated := at.when));
      SendSequence(marked, Reporter(s, a.n), at.makeReady);
      SendSequence(t, s.reporter, at.makeReady);
    }
  }

  lemma SendSequence(s: State, retired: Option<nat>, makeReady: bool)
    ensures var t := SendStatus(s, retired, makeReady); t.status == s.status && t.sequence == s.sequence
    ensures var t := Unready(Retire(s, retired), makeReady); t.status == s.status && t.sequence == s.sequence
  {
  }

  lemma HealthStatus(s: State, a: Action)
    requires a.UpdateHealth?
    ensures var t := UpdateHealthStep(s, a.sequence, a.calls);
            && t.sequence == (if HealthCounts(s, a) then a.sequence else s.sequence)
            && t.status == if HealthCounts(s, a) then s.status.(updated := s.clock, calls := a.calls) else s.status
  {
    SendSequence(s.(status := s.status.(updated := s.clock, calls := a.calls), sequence := a.sequence), None, false);
    hide SendStatus;
  }

  lemma CallStatus(s: State, a: Action)
    requires a.EndCall?
    ensures var t := EndCallStep(s, a.n, a.err, a.when);
            && t.sequence == s.sequence
            && t.status.calls == s.status.calls
            && t.status.idleSince == (if CallEnds(s, a) then Later(s.status.idleSince, a.when) else s.status.idleSince)
            && t.status.err == (if CallFails(s, a) then a.err else s.status.err)
            && t.status.updated == (if CallFails(s, a) then a.when else s.status.updated)
  {
    var status := s.status.(idleSince := if s.status.idleSince < a.when then a.when else s.status.idleSince);
    var failed := status.(err := a.err, updated := a.when, changed := if status.err != a.err then a.when else status.changed);
    SendSequence(s.(callers := s.callers - multiset{a.n}, status := failed), None, false);
    hide SendStatus;
  }

  lemma FinishStatus(s: State)
    ensures FinishSendStep(s).status == s.status && FinishSendStep(s).sequence == s.sequence
  {
    if s.sender.Some? && s.sender.value.StatusSender? {
      SendSequence(s.(sender := None), s.sender.value.retired, s.sender.value.makeReady);
    }
    hide SendStatus;
  }

  lemma StatusStep(s: State, a: Action)
    requires Inv(s)
    ensures var t := Step(s, a);
            && t.status.err == (if Installs(s, a) then s.attempts[a.n].err else if CallFails(s, a) then a.err
                                else if Closes(s, a) then ErrClosed else s.status.err)
            && t.status.updated == (if Installs(s, a) then s.attempts[a.n].when else if HealthCounts(s, a) then s.clock
                                    else if CallFails(s, a) then a.when else s.status.updated)
            && t.status.idleSince == (if CallEnds(s, a) then Later(s.status.idleSince, a.when) else s.status.idleSince)
            && t.status.calls == (if HealthCounts(s, a) then a.calls else s.status.calls)
            && t.sequence == (if HealthCounts(s, a) then a.sequence else s.sequence)
  {
    InvMeansNoFault(s);
    hide Inv, RunConfigStep, RunStatusStep, UpdateConnectionStep, FinishSendStep, UpdateHealthStep, EndCallStep;
    match a
    case RunConfig => RunConfigFrame(s);
    case RunStatus => RunStatusFrame(s);
    case UpdateConnection(_) => InstallStatus(s, a);
    case FinishSend => FinishStatus(s);
    case UpdateHealth(_, _) => HealthStatus(s, a);
    case EndCall(_, _, _) => CallStatus(s, a);
    case _ =>
  }

  /** Over any run the status is what the events before it say: the documented meaning of its fields. */
  lemma {:induction false} StatusIsFold(config: Config, now: int, acts: seq<Action>)
    ensures var s := Run(config, now, acts);
            && s.status.err == ErrOf(config, now, acts)
            && s.status.updated == UpdatedOf(config, now, acts)
            && s.status.idleSince == IdleOf(config, now, acts)
            && (s.sequence, s.status.calls) == HealthOf(config, now, acts)
  {
    if acts == [] {
    } else {
      hide *;
      var before, a := acts[..|acts| - 1], acts[|acts| - 1];
      StatusIsFold(config, now, before);
      InvHolds(config, now, before);
      assert acts == before + [a];
      FoldNext(config, now, before, a);
      Unroll(config, now, before, a);
      StatusStep(Run(config, now, before), a);
    }
  }

  // ---------------------------------------------------------------- what run learns

  predicate Publishes(s: State, a: Action) { Installs(s, a) || HealthCounts(s, a) || CallFails(s, a) }

  /** The states that have been put on stateChange, in order. */
  function SentStatuses(config: Config, now: int, acts: seq<Action>): seq<Status> {
    if acts == [] then []
    else
      var before, a := acts[..|acts| - 1], acts[|acts| - 1];
      SentStatuses(config, now, before)
      + if Publishes(Run(config, now, before), a) then [Run(config, now, acts).status] else []
  }

  function TakenStatus(s: State, a: Action): seq<Status> {
    if ReceivesStatus(s, a) then [s.statusQueue[0]] else []
  }

  function ReceivedStatuses(config: Config, now: int, acts: seq<Action>): seq<Status> {
    if acts == [] then []
    else
      var s := Run(config, now, acts[..|acts| - 1]);
      ReceivedStatuses(config, now, acts[..|acts| - 1])
      + TakenStatus(s, acts[|acts| - 1])
  }

  /** What is in the channel, and what a goroutine that holds the mutex has still to send. */
  function NewsOnTheWay(s: State): seq<Status> {
    s.statusQueue + if s.sender.Some? && s.sender.value.StatusSender? then [s.status] else []
  }

  lemma NewsSent(s: State, retired: Option<nat>, makeReady: bool)
    requires s.sender == None && !s.channelsClosed
    ensures NewsOnTheWay(SendStatus(s, retired, makeReady)) == s.statusQueue + [s.status]
    ensures NewsOnTheWay(Unready(Retire(s, retired), makeReady)) == s.statusQueue
  {
  }

  lemma LateNews(s: State, retired: Option<nat>, makeReady: bool)
    requires s.sender == None
    ensures NewsOnTheWay(Unready(Retire(s, retired), makeReady)) == s.statusQueue
  {
  }

  lemma InstallNews(s: State, a: Action)
    requires a.UpdateConnection? && (s.channelsClosed <==> s.status.err == ErrClosed)
    ensures var t := UpdateConnectionStep(s, a.n);
            NewsOnTheWay(t) == NewsOnTheWay(s) + if Installs(s, a) then [t.status] else []
  {
    hide SendStatus, Unready, Retire;
    if Unlocked(s) && a.n < |s.attempts| && !s.attempts[a.n].applied {
      var at := s.attempts[a.n];
      var marked := s.(attempts := s.attempts[a.n := at.(applied := true)]);
      var t := marked.(reporter := Reporter(s, a.n), status := s.status.(err := at.err, updated := at.when));
      SendSequence(t, s.reporter, at.makeReady);
      LateNews(marked, Reporter(s, a.n), at.makeReady);
      if !s.channelsClosed {
        NewsSent(t, s.reporter, at.makeReady);
      }
    }
  }

  lemma HealthNews(s: State, a: Action)
    requires a.UpdateHealth? && (s.channelsClosed <==> s.status.err == ErrClosed)
    ensures var t := UpdateHealthStep(s, a.sequence, a.calls);
            NewsOnTheWay(t) == NewsOnTheWay(s) + if HealthCounts(s, a) then [t.status] else []
  {
    hide SendStatus;
    if HealthCounts(s, a) {
      var t := s.(status := s.status.(updated := s.clock, calls := a.calls), sequence := a.sequence);
      SendSequence(t, None, false);
      NewsSent(t, None, false);
    }
  }

  lemma CallNews(s: State, a: Action)
    requires a.EndCall? && (s.channelsClosed <==> s.status.err == ErrClosed)
    ensures var t := EndCallStep(s, a.n, a.err, a.when);
            NewsOnTheWay(t) == NewsOnTheWay(s) + if CallFails(s, a) then [t.status] else []
  {
    hide SendStatus;
    if CallFails(s, a) {
      var status := s.status.(idleSince := if s.status.idleSince < a.when then a.when else s.status.idleSince);
      var failed := status.(err := a.err, updated := a.when, changed := if status.err != a.err then a.when else status.changed);
      var t := s.(callers := s.callers - multiset{a.n}, status := failed);
      SendSequence(t, None, false);
      NewsSent(t, None, false);
    }
  }

  lemma FinishNews(s: State)
    requires s.sender.Some? ==> !s.channelsClosed
    ensures NewsOnTheWay(FinishSendStep(s)) == NewsOnTheWay(s)
  {
    hide SendStatus;
    if s.sender.Some? && s.sender.value.StatusSender? {
      NewsSent(s.(sender := None), s.sender.value.retired, s.sender.value.makeReady);
    }
  }

  lemma StatusReceived(s: State)
    ensures var t := RunStatusStep(s);
            && t.status == s.status && t.sender == s.sender
            && t.statusQueue == if ReceivesStatus(s, RunStatus) then s.statusQueue[1..] else s.statusQueue
  {
  }

  lemma NewsMoves(s: State, a: Action)
    requires Inv(s)
    ensures TakenStatus(s, a) + NewsOnTheWay(Step(s, a))
            == NewsOnTheWay(s) + if Publishes(s, a) then [Step(s, a).status] else []
  {
    InvMeansNoFault(s);
    assert (s.channelsClosed <==> s.status.err == ErrClosed) && (s.sender.Some? ==> !s.channelsClosed);
    hide Inv, RunStatusStep;
    if a.RunStatus? {
      StatusReceived(s);
    } else {
      OthersPublish(s, a);
      hide Step, NewsOnTheWay;
    }
  }

  lemma OthersPublish(s: State, a: Action)
    requires !a.RunStatus? && s.fault == NoFault
    requires (s.channelsClosed <==> s.status.err == ErrClosed) && (s.sender.Some? ==> !s.channelsClosed)
    ensures NewsOnTheWay(Step(s, a)) == NewsOnTheWay(s) + if Publishes(s, a) then [Step(s, a).status] else []
  {
    hide RunConfigStep, UpdateConnectionStep, FinishSendStep, UpdateHealthStep, EndCallStep;
    if a.UpdateConnection? {
      InstallNews(s, a);
    } else if a.FinishSend? {
      FinishNews(s);
    } else if a.UpdateHealth? {
      HealthNews(s, a);
    } else if a.EndCall? {
      CallNews(s, a);
    } else {
      OthersAreSilent(s, a);
      hide Step, NewsOnTheWay;
    }
  }

  lemma OthersAreSilent(s: State, a: Action)
    requires !a.RunStatus? && !a.UpdateConnection? && !a.FinishSend? && !a.UpdateHealth? && !a.EndCall?
    ensures NewsOnTheWay(Step(s, a)) == NewsOnTheWay(s)
  {
    hide RunConfigStep;
    if a.RunConfig? {
      RunConfigFrame(s);
    }
  }

  lemma NewsNext(config: Config, now: int, acts: seq<Action>, a: Action)
    ensures var s, t := Run(config, now, acts), Run(config, now, acts + [a]);
            && SentStatuses(config, now, acts + [a])
               == SentStatuses(config, now, acts) + (if Publishes(s, a) then [t.status] else [])
            && ReceivedStatuses(config, now, acts + [a])
               == ReceivedStatuses(config, now, acts) + TakenStatus(s, a)
  {
    assert (acts + [a])[..|acts|] == acts;
  }

  lemma NoNewsYet(config: Config, now: int)
    ensures ReceivedStatuses(config, now, []) + NewsOnTheWay(Run(config, now, [])) == SentStatuses(config, now, [])
    ensures Learns(Run(config, now, []))
  {
  }

  /** Every state that a connection, a health update or a failed call leads to reaches run, once and in order. */
  lemma {:induction false} StatusesInOrder(config: Config, now: int, acts: seq<Action>)
    ensures ReceivedStatuses(config, now, acts) + NewsOnTheWay(Run(config, now, acts)) == SentStatuses(config, now, acts)
  {
    hide *;
    if acts == [] {
      NoNewsYet(config, now);
    } else {
      var before, a := acts[..|acts| - 1], acts[|acts| - 1];
      StatusesInOrder(config, now, before);
      InvHolds(config, now, before);
      assert acts == before + [a];
      NewsNext(config, now, before, a);
      Unroll(config, now, before, a);
      var s := Run(config, now, before);
      NewsMoves(s, a);
      Regroup(ReceivedStatuses(config, now, before), TakenStatus(s, a),
              NewsOnTheWay(Step(s, a)), SentStatuses(config, now, before), NewsOnTheWay(s),
              if Publishes(s, a) then [Step(s, a).status] else []);
    }
  }

  /** What run will think of the endpoint once it has received all that is on the way. */
  function WillSee(s: State): bool {
    if NewsOnTheWay(s) == [] then s.runOnline else NewsOnTheWay(s)[|NewsOnTheWay(s)| - 1].err == Online
  }

  ghost predicate Learns(s: State) { s.status.err != ErrClosed ==> (WillSee(s) <==> s.status.err == Online) }

  lemma LearnsStep(s: State, a: Action)
    requires Inv(s) && Learns(s)
    ensures Learns(Step(s, a))
  {
    NewsMoves(s, a);
    StatusStep(s, a);
    SeesReceived(s, a);
    ClosedErr(s, a);
    var t := Step(s, a);
    var first := TakenStatus(s, a);
    var new' := if Publishes(s, a) then [t.status] else [];
    LastNewsStays(s.runOnline, t.runOnline, NewsOnTheWay(s), NewsOnTheWay(t), first, new');
    hide Inv, Step, NewsOnTheWay, Unlocked;
  }

  lemma SeesReceived(s: State, a: Action)
    requires Inv(s)
    ensures Step(s, a).runOnline == if ReceivesStatus(s, a) then s.statusQueue[0].err == Online else s.runOnline
  {
    InvMeansNoFault(s);
    assert s.sender.Some? ==> !s.channelsClosed;
    hide Inv;
    if !ByRun(a) {
      OtherSameRun(s, a);
      hide Step;
    } else if a.RunConfig? {
      RunConfigFrame(s);
      hide RunConfigStep;
    }
  }

  lemma LastNewsStays(x: bool, y: bool, before: seq<Status>, after: seq<Status>, first: seq<Status>, new': seq<Status>)
    requires first + after == before + new' && |first| <= 1 && |new'| <= 1
    requires y == if first == [] then x else first[0].err == Online
    ensures (if after == [] then y else after[|after| - 1].err == Online)
            == if new' != [] then new'[0].err == Online
               else if before == [] then x else before[|before| - 1].err == Online
  {
    var all := first + after;
    if all != [] {
      assert all[|all| - 1] == if new' == [] then before[|before| - 1] else new'[0];
      assert after != [] ==> after[|after| - 1] == all[|all| - 1];
      assert after == [] ==> all == first;
    }
  }

  lemma {:induction false} LearnsHolds(config: Config, now: int, acts: seq<Action>)
    ensures Learns(Run(config, now, acts))
  {
    hide *;
    if acts == [] {
      NoNewsYet(config, now);
    } else {
      var before, a := acts[..|acts| - 1], acts[|acts| - 1];
      LearnsHolds(config, now, before);
      InvHolds(config, now, before);
      assert acts == before + [a];
      Unroll(config, now, before, a);
      LearnsStep(Run(config, now, before), a);
    }
  }

  /** Once run of an open endpoint has received what was sent, it knows whether the endpoint is online. */
  lemma RunLearnsState(config: Config, now: int, acts: seq<Action>)
    requires Run(config, now, acts).status.err != ErrClosed && NewsOnTheWay(Run(config, now, acts)) == []
    ensures Run(config, now, acts).runOnline <==> Run(config, now, acts).status.err == Online
  {
    LearnsHolds(config, now, acts);
  }

  // ---------------------------------------------------------------- connecting

  /** An attempt is recorded with its outcome and the time at which it began; the first makes the endpoint ready. */
  lemma AttemptIsRecorded(config: Config, now: int, acts: seq<Action>, err: Err)
    requires Run(config, now, acts).pc == Connecting && err != ErrClosed
    ensures var s, t := Run(config, now, acts), Run(config, now, acts + [RunConnected(err)]);
            && LastAttempt(config, now, acts).Some?
            && t.attempts == s.attempts + [Attempt(err, LastAttempt(config, now, acts).value, s.attempts == [], false)]
  {
    Scheduled(config, now, acts);
    InvHolds(config, now, acts);
    Unroll(config, now, acts, RunConnected(err));
    hide Run, LastAttempt, InForce, SeenOnline, Due;
  }

  /** updateConnection gives the endpoint the reporter of its attempt, or none after a failed one. */
  lemma InstallTakesEffect(config: Config, now: int, acts: seq<Action>, n: nat)
    requires Installs(Run(config, now, acts), UpdateConnection(n))
    ensures var s, t := Run(config, now, acts), Run(config, now, acts + [UpdateConnection(n)]);
            && t.reporter == (if s.attempts[n].err == Online then Some(n) else None)
            && t.status.err == s.attempts[n].err
  {
    InvHolds(config, now, acts);
    Unroll(config, now, acts, UpdateConnection(n));
    InvMeansNoFault(Run(config, now, acts));
    hide Run, Inv;
    InstallReporter(Run(config, now, acts), n);
  }

  lemma InstallReporter(s: State, n: nat)
    requires Installs(s, UpdateConnection(n))
    ensures var t := UpdateConnectionStep(s, n);
            t.reporter == Reporter(s, n) && t.status.err == s.attempts[n].err
  {
    hide SendStatus;
    var a := s.attempts[n];
    var marked := s.(attempts := s.attempts[n := a.(applied := true)]);
    var t := marked.(reporter := Reporter(s, n), status := s.status.(err := a.err, updated := a.when));
    SendFrame(t, s.reporter, a.makeReady);
  }

  lemma ConnectAndInstall(s: State) returns (more: seq<Action>)
    requires Inv(s) && Unlocked(s) && s.pc == Connecting && s.status.err != ErrClosed
    ensures Exec(s, more).status.err == Online && Exec(s, more).reporter == Some(|s.attempts|)
  {
    var n, a := |s.attempts|, RunConnected(Online);
    InvStep(s, a);
    var t := Step(s, a);
    assert Installs(t, UpdateConnection(n)) && t.attempts[n].err == Online;
    InstallReporter(t, n);
    InvMeansNoFault(t);
    assert Step(t, UpdateConnection(n)) == UpdateConnectionStep(t, n);
    hide Step, Inv, UpdateConnectionStep;
    ExecOne(t, UpdateConnection(n), []);
    ExecOne(s, a, [UpdateConnection(n)]);
    assert [UpdateConnection(n)] + [] == [UpdateConnection(n)];
    more := [a] + [UpdateConnection(n)];
  }

  lemma WaitAndConnect(s: State) returns (more: seq<Action>)
    requires Inv(s) && Unlocked(s) && s.pc == Select && s.status.err != ErrClosed
    ensures Exec(s, more).status.err == Online && Exec(s, more).reporter.Some?
  {
    var n: nat := if s.timer.Armed? && s.timer.at > s.clock then s.timer.at - s.clock else 0;
    InvStep(s, Tick(n));
    var t := Step(s, Tick(n));
    InvStep(t, TimerFires);
    var u := Step(t, TimerFires);
    InvStep(u, RunTick);
    var w := Step(u, RunTick);
    assert u.timer == Fired && w.pc == Connecting && Unlocked(w) && w.status == s.status;
    hide Step, Inv;
    var rest := ConnectAndInstall(w);
    ExecOne(u, RunTick, rest);
    ExecOne(t, TimerFires, [RunTick] + rest);
    ExecOne(s, Tick(n), [TimerFires] + ([RunTick] + rest));
    more := [Tick(n)] + ([TimerFires] + ([RunTick] + rest));
  }

  /** While offline the endpoint tries to connect again: from every state that is not closed it can come online. */
  lemma CanComeOnline(config: Config, now: int, acts: seq<Action>) returns (more: seq<Action>)
    requires Run(config, now, acts).status.err != ErrClosed
    ensures Run(config, now, acts + more).status.err == Online && Run(config, now, acts + more).reporter.Some?
  {
    InvHolds(config, now, acts);
    var s := Run(config, now, acts);
    assert s.pc != Exited;
    hide Step, Run, Inv;
    if s.sender.Some? {
      var first := Release(s);
      ExecInv(s, first);
      var rest := WaitAndConnect(Exec(s, first));
      more := first + rest;
      ExecSplit(s, first, rest);
    } else if s.pc == Connecting {
      more := ConnectAndInstall(s);
    } else {
      more := WaitAndConnect(s);
    }
    RunFrom(config, now, acts, more);
  }

  // ---------------------------------------------------------------- calls

  /** A call that gets past ready, on an endpoint that is online and responsive. */
  predicate CallBegins(s: State, a: Action) {
    a.BeginCall? && !a.unresponsive && Unlocked(s) && s.ready == 0 && s.status.err == Online && s.reporter.Some?
  }

  /** The calls in progress, by the reporter that each was given. */
  ghost function CallsOf(config: Config, now: int, acts: seq<Action>): multiset<nat> {
    if acts == [] then multiset{}
    else
      var before, a := acts[..|acts| - 1], acts[|acts| - 1];
      var s := Run(config, now, before);
      if CallBegins(s, a) then CallsOf(config, now, before) + multiset{s.reporter.value}
      else if CallEnds(s, a) then CallsOf(config, now, before) - multiset{a.n}
      else CallsOf(config, now, before)
  }

  lemma CallsStep(s: State, a: Action)
    requires Inv(s)
    ensures Step(s, a).callers == if CallBegins(s, a) then s.callers + multiset{s.reporter.value}
                                  else if CallEnds(s, a) then s.callers - multiset{a.n} else s.callers
  {
    InvMeansNoFault(s);
    assert (s.status.err == Online ==> s.reporter.Some?) && (s.ready == 0 || s.ready == 1);
    hide Inv, RunConfigStep, RunStatusStep, UpdateConnectionStep, FinishSendStep, UpdateHealthStep, EndCallStep;
    match a
    case RunConfig => RunConfigFrame(s);
    case RunStatus => RunStatusFrame(s);
    case UpdateConnection(n) => InstallCallers(s, n);
    case FinishSend => FinishCallers(s);
    case UpdateHealth(sequence, calls) => HealthCallers(s, sequence, calls);
    case EndCall(_, _, _) => EndCallers(s, a);
    case _ =>
  }

  lemma SendCallers(s: State, retired: Option<nat>, makeReady: bool)
    ensures SendStatus(s, retired, makeReady).callers == s.callers
    ensures Unready(Retire(s, retired), makeReady).callers == s.callers
  {
  }

  lemma InstallCallers(s: State, n: nat)
    ensures UpdateConnectionStep(s, n).callers == s.callers
  {
    hide SendStatus, Unready, Retire;
    if Unlocked(s) && n < |s.attempts| && !s.attempts[n].applied {
      var a := s.attempts[n];
      var marked := s.(attempts := s.attempts[n := a.(applied := true)]);
      var t := marked.(reporter := Reporter(s, n), status := s.status.(err := a.err, updated := a.when));
      SendCallers(marked, Reporter(s, n), a.makeReady);
      SendCallers(t, s.reporter, a.makeReady);
    }
  }

  lemma FinishCallers(s: State)
    ensures FinishSendStep(s).callers == s.callers
  {
    hide SendStatus;
    if s.sender.Some? && s.sender.value.StatusSender? {
      SendCallers(s.(sender := None), s.sender.value.retired, s.sender.value.makeReady);
    }
  }

  lemma HealthCallers(s: State, sequence: nat, calls: int)
    ensures UpdateHealthStep(s, sequence, calls).callers == s.callers
  {
    hide SendStatus;
    SendCallers(s.(status := s.status.(updated := s.clock, calls := calls), sequence := sequence), None, false);
  }

  lemma EndCallers(s: State, a: Action)
    requires a.EndCall?
    ensures EndCallStep(s, a.n, a.err, a.when).callers == if CallEnds(s, a) then s.callers - multiset{a.n} else s.callers
  {
    hide SendStatus;
    var status := s.status.(idleSince := if s.status.idleSince < a.when then a.when else s.status.idleSince);
    var failed := status.(err := a.err, updated := a.when, changed := if status.err != a.err then a.when else status.changed);
    SendCallers(s.(callers := s.callers - multiset{a.n}, status := failed), None, false);
  }

  /** Over any run exactly the calls that found the endpoint ready, online and responsive are in progress, each
      on the reporter that was installed then, until they end. */
  lemma {:induction false} CallsAreOnline(config: Config, now: int, acts: seq<Action>)
    ensures Run(config, now, acts).callers == CallsOf(config, now, acts)
  {
    if acts == [] {
    } else {
      hide Step, Inv, CallBegins, CallEnds;
      var before, a := acts[..|acts| - 1], acts[|acts| - 1];
      CallsAreOnline(config, now, before);
      InvHolds(config, now, before);
      assert acts == before + [a];
      Unroll(config, now, before, a);
      CallsStep(Run(config, now, before), a);
    }
  }

  // ---------------------------------------------------------------- the channels

  /** UpdateConfig blocks, with the mutex, exactly if 32 configurations wait already. */
  lemma BlocksExactlyWhenFull(config: Config, now: int, acts: seq<Action>, c: Config)
    requires Unlocked(Run(config, now, acts)) && Run(config, now, acts).status.err != ErrClosed
    ensures |Run(config, now, acts).configQueue| <= 32
    ensures !Unlocked(Run(config, now, acts + [UpdateConfig(c)])) <==> |Run(config, now, acts).configQueue| == 32
  {
    InvHolds(config, now, acts);
    Unroll(config, now, acts, UpdateConfig(c));
    hide Run;
  }

  /** A call's failure, likewise, exactly if 32 states wait already. */
  lemma FailureBlocksExactlyWhenFull(config: Config, now: int, acts: seq<Action>, n: nat, err: Err, when: int)
    requires CallFails(Run(config, now, acts), EndCall(n, err, when))
    ensures |Run(config, now, acts).statusQueue| <= 32
    ensures !Unlocked(Run(config, now, acts + [EndCall(n, err, when)])) <==> |Run(config, now, acts).statusQueue| == 32
  {
    InvHolds(config, now, acts);
    Unroll(config, now, acts, EndCall(n, err, when));
    hide Run;
  }

  /** After Close run ends as soon as it has drained either channel. */
  lemma ClosedChannelsStopRun(config: Config, now: int, acts: seq<Action>)
    requires Run(config, now, acts).pc == Select && Run(config, now, acts).status.err == ErrClosed
    ensures Run(config, now, acts + [RunConfig]).pc == Exited <==> Run(config, now, acts).configQueue == []
    ensures Run(config, now, acts + [RunStatus]).pc == Exited <==> Run(config, now, acts).statusQueue == []
  {
    InvHolds(config, now, acts);
    Unroll(config, now, acts, RunConfig);
    Unroll(config, now, acts, RunStatus);
    hide Run;
    RunStatusFrame(Run(config, now, acts));
    StatusPc(Run(config, now, acts));
    RunConfigFrame(Run(config, now, acts));
  }

  lemma StatusPc(s: State)
    requires s.pc == Select
    ensures s.statusQueue != [] ==> RunStatusStep(s).pc == Select
  {
  }

  // ---------------------------------------------------------------- the mutex

  predicate NeedsMutex(a: Action) {
    a.UpdateConnection? || a.UpdateConfig? || a.UpdateHealth? || a.BeginCall? || a.EndCall? || a.CloseBegin? || a.CloseEnd?
  }

  /** While a goroutine waits with the mutex for room in a channel, nobody else gets it. */
  lemma HeldMutexExcludes(config: Config, now: int, acts: seq<Action>, a: Action)
    requires !Unlocked(Run(config, now, acts)) && NeedsMutex(a)
    ensures Run(config, now, acts + [a]) == Run(config, now, acts)
  {
    Unroll(config, now, acts, a);
    hide Run, SendStatus;
  }
}
