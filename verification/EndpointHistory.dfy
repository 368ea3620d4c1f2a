/** What the status of helper/endpoint.go says about the run that led to it. */
module EndpointHistory {
  import opened Base
  import opened EndpointProtocol
  import opened EndpointTheorems

  // ---------------------------------------------------------------- Changed

  /** The end of a call whose failure counts. */
  predicate Counts(s: State, a: Action) {
    && a.EndCall? && Unlocked(s) && a.n in s.callers && a.when <= s.clock
    && a.err.Unavailable? && a.err != s.status.err
    && s.reporter == Some(a.n) && s.status.err != ErrClosed && s.status.updated <= a.when
  }

  /** When the last failure that counted was noticed, or else when the endpoint was made. */
  function LastFailure(config: Config, now: int, acts: seq<Action>): int {
    if acts == [] then now
    else
      var before, a := acts[..|acts| - 1], acts[|acts| - 1];
      if Counts(Run(config, now, before), a) then a.when else LastFailure(config, now, before)
  }

  lemma ChangedByInstall(s: State, n: nat)
    ensures UpdateConnectionStep(s, n).status.changed == s.status.changed
  {
    InstallSetsErr(s, n);
  }

  lemma ChangedByCall(s: State, n: nat, err: Err, when: int)
    requires s.fault == NoFault
    ensures EndCallStep(s, n, err, when).status.changed
            == if Counts(s, EndCall(n, err, when)) then when else s.status.changed
  {
    var status := s.status.(idleSince := if s.status.idleSince < when then when else s.status.idleSince);
    var failed := status.(err := err, updated := when, changed := if status.err != err then when else status.changed);
    SendFrame(s.(callers := s.callers - multiset{n}, status := failed), None, false);
    hide SendStatus;
  }

  lemma ChangedByFinish(s: State)
    ensures FinishSendStep(s).status == s.status && FinishSendStep(s).reporter == s.reporter
  {
    if s.sender.Some? && s.sender.value.StatusSender? {
      SendFrame(s.(sender := None), s.sender.value.retired, s.sender.value.makeReady);
    }
    hide SendStatus;
  }

  lemma ChangedByHealth(s: State, sequence: nat, calls: int)
    ensures var t := UpdateHealthStep(s, sequence, calls);
            t.status == s.status.(updated := t.status.updated, calls := t.status.calls) && t.reporter == s.reporter
  {
    SendFrame(s.(status := s.status.(updated := s.clock, calls := calls), sequence := sequence), None, false);
    hide SendStatus;
  }

  lemma ChangedStep(s: State, a: Action)
    requires s.fault == NoFault
    ensures Step(s, a).status.changed == if Counts(s, a) then a.when else s.status.changed
  {
    hide RunConfigStep, RunStatusStep, UpdateConnectionStep, FinishSendStep, UpdateHealthStep, EndCallStep;
    RunConfigFrame(s);
    RunStatusFrame(s);
    match a
    case UpdateConnection(n) => ChangedByInstall(s, n);
    case FinishSend => ChangedByFinish(s);
    case UpdateHealth(sequence, calls) => ChangedByHealth(s, sequence, calls);
    case EndCall(n, err, when) => ChangedByCall(s, n, err, when);
    case _ =>
  }

  /** Changed is documented as the last time the state changed.  Over any run it is the time of the last
      failure of a call that counted, or of the endpoint's creation: neither connections nor Close set it. */
  lemma {:induction false} ChangedIsLastFailure(config: Config, now: int, acts: seq<Action>)
    ensures Run(config, now, acts).status.changed == LastFailure(config, now, acts)
  {
    hide Step, Counts, Inv;
    if acts == [] {
    } else {
      var before := acts[..|acts| - 1];
      ChangedIsLastFailure(config, now, before);
      InvHolds(config, now, before);
      InvMeansNoFault(Run(config, now, before));
      ChangedStep(Run(config, now, before), acts[|acts| - 1]);
    }
  }

  // ---------------------------------------------------------------- who made the endpoint online

  predicate Applied(s: State, n: nat) { n < |s.attempts| && s.attempts[n].applied }

  lemma SendAttempts(s: State, retired: Option<nat>, makeReady: bool)
    ensures SendStatus(s, retired, makeReady).attempts == s.attempts
    ensures Unready(Retire(s, retired), makeReady).attempts == s.attempts
  {
  }

  lemma FinishFrame(s: State)
    ensures FinishSendStep(s).attempts == s.attempts
  {
    if s.sender.Some? && s.sender.value.StatusSender? {
      SendAttempts(s.(sender := None), s.sender.value.retired, s.sender.value.makeReady);
    }
    hide SendStatus;
  }

  lemma HealthFrame(s: State, sequence: nat, calls: int)
    ensures UpdateHealthStep(s, sequence, calls).attempts == s.attempts
  {
    SendAttempts(s.(status := s.status.(updated := s.clock, calls := calls), sequence := sequence), None, false);
    hide SendStatus;
  }

  lemma CallFrame(s: State, n: nat, err: Err, when: int)
    ensures EndCallStep(s, n, err, when).attempts == s.attempts
  {
    var status := s.status.(idleSince := if s.status.idleSince < when then when else s.status.idleSince);
    var failed := status.(err := err, updated := when, changed := if status.err != err then when else status.changed);
    SendAttempts(s.(callers := s.callers - multiset{n}, status := failed), None, false);
    hide SendStatus;
  }

  lemma InstallFrame(s: State, n: nat)
    ensures var t := UpdateConnectionStep(s, n);
            t.attempts == if Unlocked(s) && n < |s.attempts| && !s.attempts[n].applied
                          then s.attempts[n := s.attempts[n].(applied := true)] else s.attempts
  {
    if Unlocked(s) && n < |s.attempts| && !s.attempts[n].applied {
      var a := s.attempts[n];
      var marked := s.(attempts := s.attempts[n := a.(applied := true)]);
      var t := marked.(reporter := Reporter(s, n), status := s.status.(err := a.err, updated := a.when));
      SendAttempts(marked, Reporter(s, n), a.makeReady);
      SendAttempts(t, s.reporter, a.makeReady);
    }
    hide SendStatus, Unready, Retire;
  }

  lemma AppliedStays(s: State, a: Action, n: nat)
    requires Applied(s, n)
    ensures Applied(Step(s, a), n) && Step(s, a).attempts[n] == s.attempts[n]
  {
    hide RunConfigStep, RunStatusStep, UpdateConnectionStep, FinishSendStep, UpdateHealthStep, EndCallStep;
    RunConfigFrame(s);
    RunStatusFrame(s);
    match a
    case UpdateConnection(m) => InstallFrame(s, m);
    case FinishSend => FinishFrame(s);
    case UpdateHealth(sequence, calls) => HealthFrame(s, sequence, calls);
    case EndCall(m, err, when) => CallFrame(s, m, err, when);
    case _ =>
  }

  /** Other than Close, only updateConnection replaces the reporter. */
  lemma ReporterStep(s: State, a: Action)
    requires !a.UpdateConnection? && !a.CloseEnd?
    ensures Step(s, a).reporter == s.reporter
  {
    RunConfigFrame(s);
    RunStatusFrame(s);
    ChangedByFinish(s);
    hide RunConfigStep, RunStatusStep, FinishSendStep;
  }

  /** An online endpoint was online before with the same reporter, or has just been given a new one. */
  lemma OnlineStep(s: State, a: Action)
    requires Inv(s) && Step(s, a).status.err == Online
    ensures var t := Step(s, a);
            || (s.status.err == Online && t.reporter == s.reporter)
            || (a.UpdateConnection? && !Applied(s, a.n) && Applied(t, a.n) && t.reporter == Some(a.n)
                && t.attempts[a.n].err == Online)
  {
    if a.UpdateConnection? {
      InstallStep(s, a.n);
    } else {
      if s.status.err != Online {
        OnlineOnlyByNewConnection(s, a);
      }
      if a.CloseEnd? {
        assert Step(s, a).status == s.status;
      } else {
        ReporterStep(s, a);
      }
    }
  }

  lemma InstallStep(s: State, n: nat)
    requires Inv(s) && UpdateConnectionStep(s, n).status.err == Online
    ensures var t := UpdateConnectionStep(s, n);
            || (s.status.err == Online && t.reporter == s.reporter)
            || (!Applied(s, n) && Applied(t, n) && t.reporter == Some(n) && t.attempts[n].err == Online)
  {
    InstallFrame(s, n);
    if Unlocked(s) && n < |s.attempts| && !s.attempts[n].applied {
      var a := s.attempts[n];
      var marked := s.(attempts := s.attempts[n := a.(applied := true)]);
      var t := marked.(reporter := Reporter(s, n), status := s.status.(err := a.err, updated := a.when));
      SendFrame(marked, Reporter(s, n), a.makeReady);
      SendFrame(t, s.reporter, a.makeReady);
    }
    hide SendStatus, Unready, Retire, TimerInv, ReadyInv;
  }

  lemma {:induction false} StaysApplied(config: Config, now: int, acts: seq<Action>, more: seq<Action>, n: nat)
    requires Applied(Run(config, now, acts), n)
    ensures Applied(Run(config, now, acts + more), n)
  {
    hide Step, Run;
    if more == [] {
      assert acts + more == acts;
    } else {
      var before, a := acts + more[..|more| - 1], more[|more| - 1];
      StaysApplied(config, now, acts, more[..|more| - 1], n);
      assert acts + more == before + [a];
      Unroll(config, now, before, a);
      AppliedStays(Run(config, now, before), a, n);
    }
  }

  /** An endpoint that was offline and now is online calls the reporter of a successful attempt that was
      installed in between, whatever else has happened. */
  lemma {:induction false} OnlineMeansReconnected(config: Config, now: int, acts: seq<Action>, more: seq<Action>)
    requires Run(config, now, acts).status.err != Online && Run(config, now, acts + more).status.err == Online
    ensures var s, t := Run(config, now, acts), Run(config, now, acts + more);
            && t.reporter.Some? && Applied(t, t.reporter.value) && t.attempts[t.reporter.value].err == Online
            && !Applied(s, t.reporter.value)
  {
    hide Step, Run, Inv;
    assert acts + [] == acts;
    if more == [] {
      assert false;
    } else {
      var rest, a := more[..|more| - 1], more[|more| - 1];
      var before := acts + rest;
      assert acts + more == before + [a];
      Unroll(config, now, before, a);
      InvHolds(config, now, before);
      var u := Run(config, now, before);
      OnlineStep(u, a);
      if u.status.err == Online && Step(u, a).reporter == u.reporter {
        OnlineMeansReconnected(config, now, acts, rest);
        AppliedStays(u, a, u.reporter.value);
      } else if Applied(Run(config, now, acts), a.n) {
        StaysApplied(config, now, acts, rest, a.n);
      }
    }
  }
}
