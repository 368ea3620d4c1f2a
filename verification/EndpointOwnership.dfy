/** Who owns each reporter that helper/endpoint.go creates, and that nobody waits for ever. */
module EndpointOwnership {
  import opened Base
  import opened EndpointProtocol
  import opened EndpointTheorems

  // ---------------------------------------------------------------- one owner for each reporter

  /** Attempt n succeeded, so that reporter n exists. */
  predicate Made(s: State, n: nat) { n < |s.attempts| && s.attempts[n].err == Online }

  function One(b: bool): nat { if b then 1 else 0 }

  /** Does the goroutine that waits to send still have to retire reporter n? */
  predicate InHand(s: State, n: nat) {
    s.sender.Some? && s.sender.value.StatusSender? && s.sender.value.retired == Some(n)
  }

  /** The places reporter n is in: installed, awaiting its updateConnection, in the hands of a waiting
      goroutine, about to be closed, or closed. */
  function Places(s: State, n: nat): nat {
    One(s.reporter == Some(n)) + One(Made(s, n) && !s.attempts[n].applied) + One(InHand(s, n))
    + s.closing[n] + s.closes[n]
  }

  ghost predicate OwnedOnce(s: State, n: nat) {
    Places(s, n) == One(Made(s, n))
  }

  lemma SendMoves(t: State, retired: Option<nat>, makeReady: bool, n: nat)
    requires t.sender == None && !t.channelsClosed
    ensures var r := SendStatus(t, retired, makeReady);
            && Places(r, n) == Places(t, n) + One(retired == Some(n))
            && (Made(r, n) <==> Made(t, n))
  {
  }

  lemma RetirePlaces(t: State, retired: Option<nat>, n: nat)
    ensures Places(Retire(t, retired), n) == Places(t, n) + One(retired == Some(n))
    ensures Made(Retire(t, retired), n) <==> Made(t, n)
  {
  }

  lemma UnreadyPlaces(t: State, makeReady: bool, n: nat)
    ensures Places(Unready(t, makeReady), n) == Places(t, n)
    ensures Made(Unready(t, makeReady), n) <==> Made(t, n)
  {
    var u := Unready(t, makeReady);
    assert u == t.(ready := u.ready, fault := u.fault);
    hide Unready;
  }

  lemma RetireOwns(t: State, retired: Option<nat>, makeReady: bool, n: nat)
    ensures var r := Unready(Retire(t, retired), makeReady);
            && Places(r, n) == Places(t, n) + One(retired == Some(n))
            && (Made(r, n) <==> Made(t, n))
  {
    RetirePlaces(t, retired, n);
    UnreadyPlaces(Retire(t, retired), makeReady, n);
    hide *;
  }

  lemma InstallOwns(s: State, m: nat, n: nat)
    requires StatusInv(s) && OwnedOnce(s, n)
    ensures OwnedOnce(UpdateConnectionStep(s, m), n)
  {
    if Unlocked(s) && m < |s.attempts| && !s.attempts[m].applied {
      var a := s.attempts[m];
      var marked := s.(attempts := s.attempts[m := a.(applied := true)]);
      if s.status.err == ErrClosed {
        RetireOwns(marked, Reporter(s, m), a.makeReady, n);
      } else {
        var t := marked.(reporter := Reporter(s, m), status := s.status.(err := a.err, updated := a.when));
        SendMoves(t, s.reporter, a.makeReady, n);
      }
      hide SendStatus, Retire, Unready;
    }
  }

  lemma FinishOwns(s: State, n: nat)
    requires StatusInv(s) && OwnedOnce(s, n)
    ensures OwnedOnce(FinishSendStep(s), n)
  {
    if s.sender.Some? && s.sender.value.StatusSender? {
      SendMoves(s.(sender := None), s.sender.value.retired, s.sender.value.makeReady, n);
      hide SendStatus;
    }
  }

  lemma HealthOwns(s: State, sequence: nat, calls: int, n: nat)
    requires StatusInv(s) && OwnedOnce(s, n)
    ensures OwnedOnce(UpdateHealthStep(s, sequence, calls), n)
  {
    if Unlocked(s) && s.status.err != ErrClosed {
      SendMoves(s.(status := s.status.(updated := s.clock, calls := calls), sequence := sequence), None, false, n);
      hide SendStatus;
    }
  }

  lemma EndCallOwns(s: State, m: nat, err: Err, when: int, n: nat)
    requires StatusInv(s) && OwnedOnce(s, n)
    ensures OwnedOnce(EndCallStep(s, m, err, when), n)
  {
    hide SendStatus;
    var status := s.status.(idleSince := if s.status.idleSince < when then when else s.status.idleSince);
    var t := s.(callers := s.callers - multiset{m}, status := status);
    var failed := t.(status := status.(err := err, updated := when,
                                       changed := if status.err != err then when else status.changed));
    SamePlaces(s, t, n);
    SamePlaces(s, failed, n);
    hide OwnedOnce;
    if Unlocked(s) && s.status.err != ErrClosed {
      SendOwns(failed, n);
    }
  }

  lemma SendOwns(t: State, n: nat)
    requires t.sender == None && !t.channelsClosed && OwnedOnce(t, n)
    ensures OwnedOnce(SendStatus(t, None, false), n)
  {
    SendMoves(t, None, false, n);
    hide SendStatus;
  }

  /** What is the same in all that Places looks at is in the same places. */
  lemma SamePlaces(s: State, t: State, n: nat)
    requires t.attempts == s.attempts && t.reporter == s.reporter && t.sender == s.sender
    requires t.closing == s.closing && t.closes == s.closes
    ensures OwnedOnce(t, n) <==> OwnedOnce(s, n)
  {
  }

  lemma RunOwns(s: State, n: nat)
    requires OwnedOnce(s, n)
    ensures OwnedOnce(RunStatusStep(s), n) && OwnedOnce(RunTickStep(s), n) && OwnedOnce(RunConfigStep(s), n)
  {
    hide OwnedOnce, RunStatusStep, RunConfigStep;
    RunStatusFrame(s);
    RunConfigFrame(s);
    SamePlaces(s, RunStatusStep(s), n);
    SamePlaces(s, RunConfigStep(s), n);
    SamePlaces(s, RunTickStep(s), n);
  }

  lemma ConnectedOwns(s: State, err: Err, n: nat)
    requires OwnedOnce(s, n)
    ensures OwnedOnce(RunConnectedStep(s, err), n)
  {
  }

  lemma OtherOwns(s: State, a: Action, n: nat)
    requires StatusInv(s) && OwnedOnce(s, n) && s.fault == NoFault
    requires a.RetireClose? || a.UpdateConfig? || a.BeginCall? || a.CloseBegin? || a.CloseEnd? || a.Tick?
             || a.TimerFires?
    ensures OwnedOnce(Step(s, a), n)
  {
  }

  lemma OwnStep(s: State, a: Action, n: nat)
    requires Inv(s) && OwnedOnce(s, n)
    ensures OwnedOnce(Step(s, a), n)
  {
    hide OwnedOnce, RunConfigStep, RunStatusStep, RunTickStep, RunConnectedStep, UpdateConnectionStep;
    hide FinishSendStep, UpdateHealthStep, EndCallStep;
    match a
    case UpdateConnection(m) => InstallOwns(s, m, n);
    case FinishSend => FinishOwns(s, n);
    case UpdateHealth(sequence, calls) => HealthOwns(s, sequence, calls, n);
    case EndCall(m, err, when) => EndCallOwns(s, m, err, when, n);
    case RunConfig => RunOwns(s, n);
    case RunStatus => RunOwns(s, n);
    case RunTick => RunOwns(s, n);
    case RunConnected(err) => ConnectedOwns(s, err, n);
    case _ => OtherOwns(s, a, n);
  }

  /** Every reporter that run created is in exactly one place; in particular it is never closed twice, nor
      closed while it is installed or awaited. */
  lemma {:induction false} EveryReporterHasOneOwner(config: Config, now: int, acts: seq<Action>, n: nat)
    ensures OwnedOnce(Run(config, now, acts), n)
  {
    hide Step, Inv;
    if acts == [] {
    } else {
      hide OwnedOnce;
      var before := acts[..|acts| - 1];
      EveryReporterHasOneOwner(config, now, before, n);
      InvHolds(config, now, before);
      OwnStep(Run(config, now, before), acts[|acts| - 1], n);
    }
  }

  /** After Close, once every spawned goroutine has run, each reporter has been closed exactly once. */
  lemma EveryReporterIsClosedOnce(config: Config, now: int, acts: seq<Action>, n: nat)
    requires var s := Run(config, now, acts);
             && s.closer == DoneClosing && s.closing == multiset{}
             && forall i :: 0 <= i < |s.attempts| ==> s.attempts[i].applied
    ensures var s := Run(config, now, acts);
            s.closes[n] == if n < |s.attempts| && s.attempts[n].err == Online then 1 else 0
  {
    EveryReporterHasOneOwner(config, now, acts, n);
    InvHolds(config, now, acts);
  }

  // ---------------------------------------------------------------- nobody waits for ever

  lemma ExecSplit(s: State, acts: seq<Action>, more: seq<Action>)
    ensures Exec(s, acts + more) == Exec(Exec(s, acts), more)
  {
    hide Step;
    if more == [] {
      assert acts + more == acts;
    } else {
      var last := |more| - 1;
      ExecSplit(s, acts, more[..last]);
      assert (acts + more)[..|acts + more| - 1] == acts + more[..last];
    }
  }

  lemma ExecOne(s: State, a: Action, more: seq<Action>)
    ensures Exec(s, [a] + more) == Exec(Step(s, a), more)
    ensures Exec(s, []) == s
  {
    hide Step;
    assert [a][..0] == [];
    ExecSplit(s, [a], more);
  }

  lemma BackToSelect(s: State)
    requires Inv(s) && s.pc == Connecting
    ensures var t := Step(s, RunConnected(OtherErr(0)));
            && Inv(t) && t.pc == Select && t.closer == s.closer && t.sender == s.sender
            && t.configQueue == s.configQueue && t.statusQueue == s.statusQueue
  {
    InvStep(s, RunConnected(OtherErr(0)));
  }

  lemma FreeConfig(s: State, config: Config)
    requires Inv(s) && s.pc == Select && s.sender == Some(ConfigSender(config))
    ensures var t := Step(Step(s, RunConfig), FinishSend);
            Unlocked(t) && t.pc == Select && t.attempts == s.attempts && t.status == s.status
  {
    InvStep(s, RunConfig);
    RunConfigFrame(s);
    hide RunConfigStep;
  }

  lemma FreeStatus(s: State)
    requires Inv(s) && s.pc == Select && s.sender.Some? && s.sender.value.StatusSender?
    ensures var t := Step(Step(s, RunStatus), FinishSend);
            Unlocked(t) && t.pc == Select && t.attempts == s.attempts && t.status == s.status
  {
    InvStep(s, RunStatus);
    RunStatusFrame(s);
    hide RunStatusStep;
  }

  /** A goroutine that holds the mutex until its channel has room can always be released by run alone:
      run takes no mutex, and cannot have exited. */
  lemma BlockedSenderIsReleased(config: Config, now: int, acts: seq<Action>) returns (more: seq<Action>)
    requires Run(config, now, acts).sender.Some?
    ensures Unlocked(Run(config, now, acts + more))
    ensures forall i :: 0 <= i < |more| ==>
              more[i] in {RunConfig, RunStatus, RunConnected(OtherErr(0)), FinishSend}
  {
    InvHolds(config, now, acts);
    var s := Run(config, now, acts);
    if s.pc == Connecting {
      BackToSelect(s);
      hide Inv, Step;
      var connected := RunConnected(OtherErr(0));
      var rest := ReleaseInSelect(Step(s, connected));
      ExecOne(s, connected, rest);
      more := [connected] + rest;
    } else {
      more := ReleaseInSelect(s);
    }
    hide Step;
    ExecSplit(Init(config, now), acts, more);
  }

  lemma ReleaseInSelect(s: State) returns (more: seq<Action>)
    requires Inv(s) && s.pc == Select && s.sender.Some?
    ensures Unlocked(Exec(s, more)) && Exec(s, more).pc == Select
    ensures Exec(s, more).attempts == s.attempts && Exec(s, more).status == s.status
    ensures forall i :: 0 <= i < |more| ==> more[i] in {RunConfig, RunStatus, FinishSend}
  {
    hide Step, Inv;
    var receive := if s.sender.value.StatusSender? then RunStatus else RunConfig;
    if s.sender.value.StatusSender? {
      FreeStatus(s);
    } else {
      FreeConfig(s, s.sender.value.config);
    }
    ExecOne(s, receive, [FinishSend]);
    ExecOne(Step(s, receive), FinishSend, []);
    assert [FinishSend] + [] == [FinishSend];
    more := [receive] + [FinishSend];
  }

  lemma {:induction false} DrainConfig(s: State) returns (more: seq<Action>)
    requires Inv(s) && s.pc == Select && s.closer == WaitingForRun
    ensures Exec(s, more).closer == DoneClosing
    decreases |s.configQueue|
  {
    InvStep(s, RunConfig);
    RunConfigFrame(s);
    var t := Step(s, RunConfig);
    assert t == RunConfigStep(s);
    if s.configQueue != [] {
      hide RunConfigStep, Inv;
      var rest := DrainConfig(t);
      more := [RunConfig] + rest;
      ExecOne(s, RunConfig, rest);
    } else {
      assert t.pc == Exited && t.closer == WaitingForRun && Unlocked(t);
      assert Step(t, CloseEnd).closer == DoneClosing;
      more := [RunConfig] + [CloseEnd];
      hide Step;
      ExecOne(s, RunConfig, [CloseEnd]);
      ExecOne(t, CloseEnd, []);
      assert [CloseEnd] + [] == [CloseEnd];
    }
  }

  /** Close waits for run to exit, and run can always get there. */
  lemma CloseCanFinish(config: Config, now: int, acts: seq<Action>) returns (more: seq<Action>)
    requires Run(config, now, acts).closer == WaitingForRun
    ensures Run(config, now, acts + more).closer == DoneClosing
  {
    InvHolds(config, now, acts);
    more := RunToClose(Run(config, now, acts));
    ExecSplit(Init(config, now), acts, more);
  }

  // ---------------------------------------------------------------- who gets past ready

  lemma {:induction false} ExecInv(s: State, more: seq<Action>)
    requires Inv(s)
    ensures Inv(Exec(s, more))
  {
    hide Step, Inv;
    if more == [] {
    } else {
      ExecInv(s, more[..|more| - 1]);
      InvStep(Exec(s, more[..|more| - 1]), more[|more| - 1]);
    }
  }

  /** run has exited without ever trying to connect, so nobody will mark the endpoint ready. */
  predicate NeverTried(s: State) { s.pc == Exited && s.attempts == [] }

  lemma NeverTriedStep(s: State, a: Action)
    requires Inv(s) && NeverTried(s)
    ensures NeverTried(Step(s, a))
  {
    RunConfigFrame(s);
    RunStatusFrame(s);
    assert RunConfigStep(s) == s && RunStatusStep(s) == s;
    assert s.channelsClosed && s.sender == None;
    hide RunConfigStep, RunStatusStep, SendStatus, TimerInv, ReadyInv;
    if a.EndCall? {
      assert s.status.err == ErrClosed;
    }
  }

  /** Then Vector, Backlog and Report wait for ever, where ErrClosed would be the answer. */
  lemma {:induction false} NeverReady(s: State, more: seq<Action>)
    requires Inv(s) && NeverTried(s)
    ensures Exec(s, more).ready == 1
    ensures NeverTried(Exec(s, more))
  {
    hide Step;
    ExecInv(s, more);
    if more == [] {
    } else {
      NeverReady(s, more[..|more| - 1]);
      ExecInv(s, more[..|more| - 1]);
      NeverTriedStep(Exec(s, more[..|more| - 1]), more[|more| - 1]);
    }
  }

  /** Once the first attempt has been applied and nobody holds the mutex, the endpoint is ready. */
  lemma AppliedIsReady(s: State)
    requires Inv(s) && s.attempts != [] && s.attempts[0].applied && Unlocked(s)
    ensures s.ready == 0
  {
  }

  lemma ReleaseKeepsApplied(s: State) returns (more: seq<Action>)
    requires Inv(s) && s.attempts != [] && s.attempts[0].applied
    ensures Exec(s, more).ready == 0
  {
    more := [];
    if s.sender.Some? {
      assert s.pc != Exited;
      more := Release(s);
    }
    ExecInv(s, more);
    AppliedIsReady(Exec(s, more));
  }

  lemma Release(s: State) returns (more: seq<Action>)
    requires Inv(s) && s.sender.Some?
    ensures var t := Exec(s, more);
            Unlocked(t) && t.pc == Select && s.attempts <= t.attempts && t.status == s.status
  {
    assert s.pc != Exited;
    if s.pc == Connecting {
      BackToSelect(s);
      var connected := RunConnected(OtherErr(0));
      assert s.attempts <= Step(s, connected).attempts && Step(s, connected).status == s.status;
      hide Inv, Step;
      var rest := ReleaseInSelect(Step(s, connected));
      ExecOne(s, connected, rest);
      more := [connected] + rest;
    } else {
      more := ReleaseInSelect(s);
    }
  }

  /** A pending first attempt can be applied. */
  lemma ApplyFirst(s: State) returns (more: seq<Action>)
    requires Inv(s) && Unlocked(s) && s.attempts != [] && !s.attempts[0].applied
    ensures Exec(s, more).ready == 0
  {
    var a := UpdateConnection(0);
    InvStep(s, a);
    var t := Step(s, a);
    assert t.attempts != [] && t.attempts[0].applied by { ApplyMarks(s); }
    hide Step, Inv;
    var rest := ReleaseKeepsApplied(t);
    ExecOne(s, a, rest);
    more := [a] + rest;
  }

  lemma ApplyMarks(s: State)
    requires Inv(s) && Unlocked(s) && s.attempts != [] && !s.attempts[0].applied
    ensures var t := Step(s, UpdateConnection(0)); t.attempts != [] && t.attempts[0].applied
  {
    var marked := s.(attempts := s.attempts[0 := s.attempts[0].(applied := true)]);
    assert marked.attempts[0].applied;
    hide Inv;
  }

  /** An attempt can end. */
  lemma ConnectFirst(s: State) returns (more: seq<Action>)
    requires Inv(s) && Unlocked(s) && s.attempts == [] && s.pc == Connecting
    ensures Exec(s, more).ready == 0
  {
    var a := RunConnected(OtherErr(0));
    InvStep(s, a);
    var t := Step(s, a);
    assert t.attempts != [] && !t.attempts[0].applied && Unlocked(t);
    hide Step, Inv;
    var rest := ApplyFirst(t);
    ExecOne(s, a, rest);
    more := [a] + rest;
  }

  lemma TickFirst(s: State) returns (more: seq<Action>)
    requires Inv(s) && Unlocked(s) && s.attempts == [] && s.pc == Select && s.timer == Fired
    ensures Exec(s, more).ready == 0
  {
    InvStep(s, RunTick);
    var t := Step(s, RunTick);
    assert t.pc == Connecting && t.attempts == [] && Unlocked(t);
    hide Step, Inv;
    var rest := ConnectFirst(t);
    ExecOne(s, RunTick, rest);
    more := [RunTick] + rest;
  }

  /** A waiting run is on its way to an attempt: its timer is armed or has fired. */
  lemma WaitFirst(s: State) returns (more: seq<Action>)
    requires Inv(s) && Unlocked(s) && s.attempts == [] && s.pc == Select
    ensures Exec(s, more).ready == 0
  {
    if s.timer == Fired {
      more := TickFirst(s);
    } else {
      var n: nat := if s.timer.at > s.clock then s.timer.at - s.clock else 0;
      InvStep(s, Tick(n));
      var t := Step(s, Tick(n));
      InvStep(t, TimerFires);
      var u := Step(t, TimerFires);
      assert u.timer == Fired && u.pc == Select && u.attempts == [] && Unlocked(u);
      hide Step, Inv;
      var rest := TickFirst(u);
      ExecOne(t, TimerFires, rest);
      ExecOne(s, Tick(n), [TimerFires] + rest);
      more := [Tick(n)] + ([TimerFires] + rest);
    }
  }

  lemma ReadyFromUnlocked(s: State) returns (more: seq<Action>)
    requires Inv(s) && Unlocked(s) && !NeverTried(s)
    ensures Exec(s, more).ready == 0
  {
    if s.attempts == [] {
      if s.pc == Connecting {
        more := ConnectFirst(s);
      } else {
        more := WaitFirst(s);
      }
    } else if s.attempts[0].applied {
      more := ReleaseKeepsApplied(s);
    } else {
      more := ApplyFirst(s);
    }
  }

  lemma BecomesReady(s: State) returns (more: seq<Action>)
    requires Inv(s) && !NeverTried(s)
    ensures Exec(s, more).ready == 0
  {
    hide Step, Inv;
    if Unlocked(s) {
      more := ReadyFromUnlocked(s);
    } else {
      var first := Release(s);
      ExecInv(s, first);
      var rest := ReadyFromUnlocked(Exec(s, first));
      ExecSplit(s, first, rest);
      more := first + rest;
    }
  }

  /** Vector, Backlog and Report wait on ready before they look at the state.  They can ever get past it if
      and only if run has not exited before its first attempt. */
  lemma CallsProceedExactly(config: Config, now: int, acts: seq<Action>)
    ensures (exists more :: Run(config, now, acts + more).ready == 0) <==> !NeverTried(Run(config, now, acts))
  {
    InvHolds(config, now, acts);
    hide Step, Inv, NeverTried;
    var s := Run(config, now, acts);
    if NeverTried(s) {
      forall more ensures Run(config, now, acts + more).ready != 0 {
        ExecSplit(Init(config, now), acts, more);
        NeverReady(s, more);
      }
    } else {
      var more := BecomesReady(s);
      ExecSplit(Init(config, now), acts, more);
    }
  }

  /** Close, and run takes notice before its timer: every call waits for ever. */
  lemma CloseBeforeFirstAttempt(config: Config, now: int) returns (acts: seq<Action>)
    ensures acts == [CloseBegin, RunConfig]
    ensures forall more :: Run(config, now, acts + more).ready == 1
  {
    acts := [CloseBegin, RunConfig];
    assert acts == [CloseBegin] + [RunConfig];
    var s := Init(config, now);
    var t := Step(Step(s, CloseBegin), RunConfig);
    assert NeverTried(t);
    ExecOne(s, CloseBegin, [RunConfig]);
    ExecOne(Step(s, CloseBegin), RunConfig, []);
    assert [RunConfig] + [] == [RunConfig];
    InvHolds(config, now, acts);
    hide Step, Inv, NeverTried;
    forall more ensures Run(config, now, acts + more).ready == 1 {
      ExecSplit(s, acts, more);
      NeverReady(t, more);
    }
  }

  // ---------------------------------------------------------------- everything can be released

  lemma CloseIsOver(s: State) returns (more: seq<Action>)
    requires Inv(s)
    ensures Exec(s, more).closer == DoneClosing
  {
    hide Step;
    var first := [];
    if s.sender.Some? {
      hide Inv;
      first := Release(s);
    }
    var t := Exec(s, first);
    ExecInv(s, first);
    if t.closer == NotClosed {
      BeginsToClose(t);
      ExecSplit(s, first, [CloseBegin]);
      assert [CloseBegin] == [CloseBegin] + [];
      ExecOne(t, CloseBegin, []);
      first := first + [CloseBegin];
      ExecInv(s, first);
    }
    hide Inv;
    var u := Exec(s, first);
    if u.closer == DoneClosing {
      more := first;
    } else {
      var rest := RunToClose(u);
      ExecSplit(s, first, rest);
      more := first + rest;
    }
  }

  lemma BeginsToClose(s: State)
    requires Inv(s) && Unlocked(s) && s.closer == NotClosed
    ensures Step(s, CloseBegin).closer == WaitingForRun
  {
  }

  lemma RunToClose(s: State) returns (more: seq<Action>)
    requires Inv(s) && s.closer == WaitingForRun
    ensures Exec(s, more).closer == DoneClosing
  {
    if s.pc == Exited {
      more := [CloseEnd];
      ExecOne(s, CloseEnd, []);
      assert [CloseEnd] + [] == [CloseEnd];
    } else if s.pc == Connecting {
      BackToSelect(s);
      hide Step, Inv;
      var rest := DrainConfig(Step(s, RunConnected(OtherErr(0))));
      more := [RunConnected(OtherErr(0))] + rest;
      ExecOne(s, RunConnected(OtherErr(0)), rest);
    } else {
      more := DrainConfig(s);
    }
  }

  function Unapplied(attempts: seq<Attempt>): nat {
    if attempts == [] then 0
    else Unapplied(attempts[..|attempts| - 1]) + if attempts[|attempts| - 1].applied then 0 else 1
  }

  lemma {:induction false} UnappliedUpdate(attempts: seq<Attempt>, n: nat)
    requires n < |attempts| && !attempts[n].applied
    ensures Unapplied(attempts[n := attempts[n].(applied := true)]) == Unapplied(attempts) - 1
  {
    var last := |attempts| - 1;
    var marked := attempts[n := attempts[n].(applied := true)];
    if n == last {
      assert marked[..last] == attempts[..last];
    } else {
      assert marked[..last] == attempts[..last][n := attempts[n].(applied := true)];
      UnappliedUpdate(attempts[..last], n);
    }
  }

  lemma LateInstall(s: State, n: nat)
    requires Inv(s) && s.closer == DoneClosing && n < |s.attempts| && !s.attempts[n].applied
    ensures var t := Step(s, UpdateConnection(n));
            && Inv(t) && t.closer == DoneClosing
            && t.attempts == s.attempts[n := s.attempts[n].(applied := true)]
  {
    InvStep(s, UpdateConnection(n));
    assert s.sender == None && s.status.err == ErrClosed;
    hide Inv;
  }

  lemma RetireOne(s: State, n: nat)
    requires Inv(s) && n in s.closing
    ensures var t := Step(s, RetireClose(n));
            Inv(t) && t.closer == s.closer && t.attempts == s.attempts && |t.closing| == |s.closing| - 1
  {
    InvStep(s, RetireClose(n));
    hide Inv;
    assert s.closing == (s.closing - multiset{n}) + multiset{n};
  }

  lemma {:induction false} ApplyAll(s: State) returns (more: seq<Action>)
    requires Inv(s) && s.closer == DoneClosing
    ensures var t := Exec(s, more);
            Inv(t) && t.closer == DoneClosing && forall i :: 0 <= i < |t.attempts| ==> t.attempts[i].applied
    decreases Unapplied(s.attempts)
  {
    hide Step, Inv;
    if n :| 0 <= n < |s.attempts| && !s.attempts[n].applied {
      LateInstall(s, n);
      UnappliedUpdate(s.attempts, n);
      var rest := ApplyAll(Step(s, UpdateConnection(n)));
      ExecOne(s, UpdateConnection(n), rest);
      more := [UpdateConnection(n)] + rest;
    } else {
      more := [];
    }
  }

  lemma {:induction false} RetireAll(s: State) returns (more: seq<Action>)
    requires Inv(s)
    ensures var t := Exec(s, more); t.closer == s.closer && t.attempts == s.attempts && t.closing == multiset{}
    decreases |s.closing|
  {
    hide Step, Inv;
    if s.closing == multiset{} {
      more := [];
    } else {
      var n :| n in s.closing;
      RetireOne(s, n);
      var rest := RetireAll(Step(s, RetireClose(n)));
      ExecOne(s, RetireClose(n), rest);
      more := [RetireClose(n)] + rest;
    }
  }

  /** From every state of every run, Close can be brought to its end and every goroutine can run, after which
      each reporter that was ever created has been closed exactly once. */
  lemma EverythingCanBeReleased(config: Config, now: int, acts: seq<Action>) returns (more: seq<Action>)
    ensures var s := Run(config, now, acts + more);
            && s.closer == DoneClosing && s.closing == multiset{}
            && (forall i :: 0 <= i < |s.attempts| ==> s.attempts[i].applied)
            && forall n: nat :: s.closes[n] == if n < |s.attempts| && s.attempts[n].err == Online then 1 else 0
  {
    InvHolds(config, now, acts);
    hide Step, Inv;
    var s := Run(config, now, acts);
    var first := CloseIsOver(s);
    ExecInv(s, first);
    var t := Exec(s, first);
    var second := ApplyAll(t);
    var third := RetireAll(Exec(t, second));
    ExecSplit(s, first, second);
    ExecSplit(s, first + second, third);
    more := first + second + third;
    ExecSplit(Init(config, now), acts, more);
    hide Run;
    assert Run(config, now, acts + more) == Exec(s, more) by { RunFrom(config, now, acts, more); }
    forall n: nat
      ensures var s' := Run(config, now, acts + more);
              s'.closes[n] == if n < |s'.attempts| && s'.attempts[n].err == Online then 1 else 0
    {
      EveryReporterIsClosedOnce(config, now, acts + more, n);
    }
  }

  lemma RunFrom(config: Config, now: int, acts: seq<Action>, more: seq<Action>)
    ensures Run(config, now, acts + more) == Exec(Run(config, now, acts), more)
  {
    ExecSplit(Init(config, now), acts, more);
  }
}
