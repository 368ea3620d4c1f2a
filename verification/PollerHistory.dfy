/** That poller/poller.go really polls: an invocation that starts is in source.Poll until that returns, and an
    open poller can always start another. */
module PollerHistory {
  import opened Base
  import opened PollerProtocol
  import opened PollerTheorems

  // ---------------------------------------------------------------- no invocation skips source.Poll

  /** source.Poll has returned in invocation `i`. */
  predicate SourceReturned(acts: seq<Action>, i: nat) {
    acts != [] &&
    var before := acts[..|acts| - 1];
    SourceReturned(before, i) || (acts[|acts| - 1] == SourceReturns(i) && At(Run(before), i, Polling))
  }

  /** Invocation `i` has acquired the right to poll. */
  predicate Acquired(acts: seq<Action>, i: nat) {
    acts != [] &&
    var before, a := acts[..|acts| - 1], acts[|acts| - 1];
    var s := Run(before);
    Acquired(before, i) || (a == Start(i) && At(s, i, Spawned) && s.holder == Nobody && !s.closed && s.running == None)
  }

  lemma HistoryNext(acts: seq<Action>, a: Action, i: nat)
    ensures Run(acts + [a]) == Step(Run(acts), a)
    ensures SourceReturned(acts + [a], i)
            == (SourceReturned(acts, i) || (a == SourceReturns(i) && At(Run(acts), i, Polling)))
    ensures Acquired(acts + [a], i)
            == var s := Run(acts);
               (Acquired(acts, i)
                || (a == Start(i) && At(s, i, Spawned) && s.holder == Nobody && !s.closed && s.running == None))
  {
    assert (acts + [a])[..|acts|] == acts;
  }

  /** Where an invocation stands, by what has happened to it. */
  ghost predicate Stands(s: State, i: nat, acquired: bool, returned: bool) {
    && (i < |s.invocations| ==>
          match s.invocations[i]
          case Spawned => !acquired && !returned
          case Polling => acquired && !returned
          case Polled => acquired && returned
          case Owing => acquired && returned
          case Gone => acquired == returned)
    && (i >= |s.invocations| ==> !acquired && !returned)
  }

  lemma StandsStep(s: State, a: Action, i: nat, acquired: bool, returned: bool)
    requires Stands(s, i, acquired, returned)
    ensures Stands(Step(s, a), i,
                   acquired || (a == Start(i) && At(s, i, Spawned) && s.holder == Nobody && !s.closed && s.running == None),
                   returned || (a == SourceReturns(i) && At(s, i, Polling)))
  {
  }

  /** Over any run, an invocation that has acquired is inside source.Poll exactly until that returns; it
      finishes, and wakes Close, only afterwards; and one that has not acquired never gets there. */
  lemma {:induction false} PollsUntilReturn(acts: seq<Action>, i: nat)
    ensures Stands(Run(acts), i, Acquired(acts, i), SourceReturned(acts, i))
    ensures At(Run(acts), i, Polling) <==> Acquired(acts, i) && !SourceReturned(acts, i)
  {
    hide Step, Run;
    if acts == [] {
      assert Run([]) == Init() by { EmptyRun(); }
    } else {
      var before, a := acts[..|acts| - 1], acts[|acts| - 1];
      PollsUntilReturn(before, i);
      assert acts == before + [a];
      HistoryNext(before, a, i);
      hide Acquired, SourceReturned;
      StandsStep(Run(before), a, i, Acquired(before, i), SourceReturned(before, i));
    }
  }

  lemma EmptyRun()
    ensures Run([]) == Init()
  {
  }

  // ---------------------------------------------------------------- every pulse can become a poll

  lemma SpawnedStarts(acts: seq<Action>, n: nat)
    requires !Run(acts).closed && Run(acts).holder == Nobody && Run(acts).running == None && At(Run(acts), n, Spawned)
    ensures At(Run(acts + [Start(n)]), n, Polling) && Run(acts + [Start(n)]).running == Some(n)
  {
    Unroll(acts, Start(n));
  }

  /** Poll on an open and idle poller leads to source.Poll, through run and the invocation it spawns. */
  lemma PulsePolls(acts: seq<Action>)
    requires !Run(acts).closed && Run(acts).holder == Nobody && Run(acts).running == None
    ensures var n := |Run(acts).invocations|; At(Run(acts + [Pulse] + [RunPulse] + [Start(n)]), n, Polling)
  {
    var n := |Run(acts).invocations|;
    InvHolds(acts);
    Unroll(acts, Pulse);
    Unroll(acts + [Pulse], RunPulse);
    SpawnedStarts(acts + [Pulse] + [RunPulse], n);
  }

  /** So does a tick. */
  lemma TickPolls(acts: seq<Action>)
    requires !Run(acts).closed && Run(acts).holder == Nobody && Run(acts).running == None
    ensures var n := |Run(acts).invocations|; At(Run(acts + [RunTicker] + [Start(n)]), n, Polling)
  {
    var n := |Run(acts).invocations|;
    InvHolds(acts);
    Unroll(acts, RunTicker);
    SpawnedStarts(acts + [RunTicker], n);
  }

  /** A tick during a poll is skipped: its invocation ends, and the poll goes on. */
  lemma BusyTickIsSkipped(acts: seq<Action>, n: nat)
    requires Run(acts).running.Some? && Run(acts).holder == Nobody && At(Run(acts), n, Spawned)
    ensures At(Run(acts + [Start(n)]), n, Gone)
    ensures Run(acts + [Start(n)]) == Run(acts).(invocations := Run(acts).invocations[n := Gone])
  {
    Unroll(acts, Start(n));
  }

  lemma Idle(acts: seq<Action>) returns (done: seq<Action>)
    requires !Run(acts).closed && Run(acts).holder == Nobody
    ensures acts <= done && !Run(done).closed && Run(done).holder == Nobody && Run(done).running == None
  {
    InvHolds(acts);
    done := acts;
    if Run(acts).running.Some? {
      var i := Run(acts).running.value;
      assert Active(Run(acts).invocations[i]);
      if At(Run(acts), i, Polling) {
        Unroll(acts, SourceReturns(i));
        done := acts + [SourceReturns(i)];
      }
      Unroll(done, Finish(i));
      done := done + [Finish(i)];
    }
  }

  /** As long as source.Poll returns, an open poller can always poll once more. */
  lemma OpenPollerPollsAgain(acts: seq<Action>) returns (done: seq<Action>, n: nat)
    requires !Run(acts).closed
    ensures acts <= done && At(Run(done), n, Polling) && n >= |Run(acts).invocations|
  {
    InvHolds(acts);
    done := acts;
    if Run(acts).holder == PulseSender {
      Unroll(acts, RunPulse);
      done := acts + [RunPulse];
    }
    assert |Run(done).invocations| >= |Run(acts).invocations|;
    var before := done;
    done := Idle(done);
    LongerRun(before, done);
    n := |Run(done).invocations|;
    TickPolls(done);
    done := done + [RunTicker] + [Start(n)];
  }

  lemma StepKeepsInvocations(s: State, a: Action)
    ensures |Step(s, a).invocations| >= |s.invocations|
  {
  }

  lemma {:induction false} LongerRun(acts: seq<Action>, done: seq<Action>)
    requires acts <= done
    ensures |Run(done).invocations| >= |Run(acts).invocations|
  {
    hide Step;
    if |done| == |acts| {
      assert done == acts;
    } else {
      var rest := done[..|done| - 1];
      LongerRun(acts, rest);
      StepKeepsInvocations(Run(rest), done[|done| - 1]);
    }
  }

  // ---------------------------------------------------------------- what Close does to run and to the poll

  /** Close came while an invocation was running. */
  predicate ClosedWhileRunning(acts: seq<Action>) {
    acts != [] &&
    var before := acts[..|acts| - 1];
    var s := Run(before);
    ClosedWhileRunning(before) || (acts[|acts| - 1].CloseBegin? && s.holder == Nobody && !s.closed && s.running.Some?)
  }

  lemma CancelStep(s: State, a: Action)
    requires s.canceled ==> s.closed
    ensures Step(s, a).canceled
            <==> s.canceled || (a.CloseBegin? && s.holder == Nobody && !s.closed && s.running.Some?)
    ensures Step(s, a).canceled ==> Step(s, a).closed
  {
  }

  /** The context of a poll is canceled exactly if Close comes while it runs. */
  lemma {:induction false} CanceledExactly(acts: seq<Action>)
    ensures Run(acts).canceled <==> ClosedWhileRunning(acts)
    ensures Run(acts).canceled ==> Run(acts).closed
  {
    hide Step;
    if acts == [] {
    } else {
      CanceledExactly(acts[..|acts| - 1]);
      CancelStep(Run(acts[..|acts| - 1]), acts[|acts| - 1]);
    }
  }

  /** After Close, run ends as soon as it reads stop, and then spawns nothing more. */
  lemma StopEndsRun(acts: seq<Action>)
    requires Run(acts).closed
    ensures Run(acts + [RunStop]).runExited
  {
    Unroll(acts, RunStop);
  }

  lemma ExitedStep(s: State, a: Action)
    requires Inv(s) && s.runExited
    ensures Step(s, a).runExited && |Step(s, a).invocations| == |s.invocations|
  {
  }

  lemma {:induction false} ExitedRunSpawnsNothing(acts: seq<Action>, more: seq<Action>)
    requires Run(acts).runExited
    ensures Run(acts + more).runExited && |Run(acts + more).invocations| == |Run(acts).invocations|
  {
    hide Step, Inv;
    if more == [] {
      assert acts + more == acts;
    } else {
      var before, a := acts + more[..|more| - 1], more[|more| - 1];
      ExitedRunSpawnsNothing(acts, more[..|more| - 1]);
      InvHolds(before);
      assert acts + more == before + [a];
      Unroll(before, a);
      ExitedStep(Run(before), a);
    }
  }

  // ---------------------------------------------------------------- the mutex

  predicate NeedsMutex(a: Action) { a.Pulse? || a.Start? || a.Finish? || a.CloseBegin? || a.CloseWake? }

  /** While a Poll blocks in its send, or Close is in source.Close, nobody else gets the mutex. */
  lemma HeldMutexExcludes(acts: seq<Action>, a: Action)
    requires Run(acts).holder != Nobody && NeedsMutex(a)
    ensures Run(acts + [a]) == Run(acts)
  {
    InvHolds(acts);
    Unroll(acts, a);
  }
}
