/** What poller/poller.go promises, over every interleaving. */
module PollerTheorems {
  import opened Base
  import opened PollerProtocol

  /** An invocation between startInvocation and finishInvocation. */
  predicate Active(pc: Invocation) { pc == Polling || pc == Polled }

  ghost predicate Inv(s: State) {
    && (forall i :: 0 <= i < |s.invocations| ==> (Active(s.invocations[i]) <==> s.running == Some(i)))
    && (s.running.Some? ==> s.running.value < |s.invocations|)
    && (s.holder == PulseSender ==> !s.closed)
    && (s.holder == SourceCloser <==> s.closer == ClosingSource)
    && (s.closed <==> s.closer != NotClosing)
    && (s.runExited ==> s.closed)
    && (s.closer == ClosingSource || s.closer == Finished ==> s.running == None)
    && (s.closer == Asleep ==>
          s.running.Some? || exists i :: 0 <= i < |s.invocations| && s.invocations[i] == Owing)
    && s.sourceCloses == (if s.closer == Finished then 1 else 0)
  }

  /** A step that moves invocation `i` and touches nothing that Inv says of Close. */
  lemma MoveKeeps(s: State, i: nat, pc: Invocation, running: Option<nat>)
    requires Inv(s) && i < |s.invocations|
    requires running == if Active(pc) then Some(i) else if s.running == Some(i) then None else s.running
    requires Active(pc) ==> s.running == None || s.running == Some(i)
    requires s.invocations[i] == Owing ==> pc == Owing
    requires s.closer == Asleep ==> running.Some? || pc == Owing || s.running == None
    requires running.Some? ==> s.closer != ClosingSource && s.closer != Finished
    ensures Inv(Move(s, i, pc).(running := running))
  {
    var t := Move(s, i, pc).(running := running);
    if s.closer == Asleep && running == None {
      if pc == Owing {
        assert t.invocations[i] == Owing;
      } else {
        var k :| 0 <= k < |s.invocations| && s.invocations[k] == Owing;
        assert t.invocations[k] == Owing;
      }
    }
  }

  lemma SpawnKeeps(s: State)
    requires Inv(s)
    ensures Inv(Spawn(s))
  {
    var t := Spawn(s);
    if s.closer == Asleep && s.running == None {
      var k :| 0 <= k < |s.invocations| && s.invocations[k] == Owing;
      assert t.invocations[k] == Owing;
    }
  }

  lemma StartKeeps(s: State, i: nat)
    requires Inv(s)
    ensures Inv(StartStep(s, i))
  {
    if s.holder == Nobody && At(s, i, Spawned) {
      if !s.closed && s.running == None {
        MoveKeeps(s, i, Polling, Some(i));
      } else {
        assert !Active(s.invocations[i]);
        MoveKeeps(s, i, Gone, s.running);
      }
    }
  }

  lemma FinishKeeps(s: State, i: nat)
    requires Inv(s)
    ensures Inv(FinishStep(s, i))
    ensures At(s, i, Polling) ==> Inv(Move(s, i, Polled))
  {
    if At(s, i, Polled) || At(s, i, Polling) {
      assert Active(s.invocations[i]);
      MoveKeeps(s, i, Owing, None);
      MoveKeeps(s, i, Polled, s.running);
    }
  }

  lemma BroadcastKeeps(s: State, i: nat)
    requires Inv(s)
    ensures Inv(BroadcastStep(s, i))
  {
    if At(s, i, Owing) {
      assert !Active(s.invocations[i]);
    }
  }

  lemma CloserKeeps(s: State)
    requires Inv(s)
    ensures Inv(CloseBeginStep(s))
    ensures s.closer == Woken && s.holder == Nobody ==> Inv(AwaitIdle(s))
  {
  }

  lemma InvStep(s: State, a: Action)
    requires Inv(s)
    ensures Inv(Step(s, a))
  {
    match a
    case RunPulse =>
      SpawnKeeps(s);
      SpawnKeeps(if s.holder == PulseSender then s.(holder := Nobody) else s);
    case RunTicker => SpawnKeeps(s);
    case Start(i) => StartKeeps(s, i);
    case SourceReturns(i) => FinishKeeps(s, i);
    case Finish(i) => FinishKeeps(s, i);
    case Broadcast(i) => BroadcastKeeps(s, i);
    case CloseBegin => CloserKeeps(s);
    case CloseWake => CloserKeeps(s);
    case _ =>
  }

  lemma {:induction false} InvHolds(acts: seq<Action>)
    ensures Inv(Run(acts))
  {
    hide Step;
    if acts == [] {
    } else {
      InvHolds(acts[..|acts| - 1]);
      InvStep(Run(acts[..|acts| - 1]), acts[|acts| - 1]);
    }
  }

  // ---------------------------------------------------------------- exclusion and shutdown

  /** At most one invocation is inside source.Poll, and source.Close runs at most once, alone. */
  lemma PollsExclude(acts: seq<Action>, i: nat, j: nat)
    requires At(Run(acts), i, Polling)
    ensures At(Run(acts), j, Polling) ==> i == j
    ensures Run(acts).closer != ClosingSource && Run(acts).closer != Finished
    ensures Run(acts).sourceCloses == 0
  {
    InvHolds(acts);
    assert Active(Run(acts).invocations[i]);
    if At(Run(acts), j, Polling) {
      assert Active(Run(acts).invocations[j]);
    }
  }

  lemma SourceClosesOnce(acts: seq<Action>)
    ensures Run(acts).sourceCloses <= 1
    ensures Run(acts).sourceCloses == 1 <==> Run(acts).closer == Finished
  {
    InvHolds(acts);
  }

  lemma Unroll(acts: seq<Action>, a: Action)
    ensures Run(acts + [a]) == Step(Run(acts), a)
  {
    assert (acts + [a])[..|acts|] == acts;
  }

  lemma ClosedStays(s: State, a: Action)
    requires s.closed
    ensures Step(s, a).closed
    ensures Step(s, a).running == s.running || Step(s, a).running == None
    ensures forall i :: 0 <= i < |Step(s, a).invocations| && Step(s, a).invocations[i] == Polling ==>
              i < |s.invocations| && s.invocations[i] == Polling
  {
  }

  /** Once Close has taken the mutex no invocation starts, however many more run spawns. */
  lemma {:induction false} NoneStartsAfterClose(acts: seq<Action>, more: seq<Action>, i: nat)
    requires Run(acts).closed && At(Run(acts + more), i, Polling)
    ensures At(Run(acts), i, Polling)
  {
    hide Step;
    if more == [] {
      assert acts + more == acts;
    } else {
      var before, a := acts + more[..|more| - 1], more[|more| - 1];
      assert acts + more == before + [a];
      Unroll(before, a);
      StillClosed(acts, more[..|more| - 1]);
      ClosedStays(Run(before), a);
      NoneStartsAfterClose(acts, more[..|more| - 1], i);
    }
  }

  lemma {:induction false} StillClosed(acts: seq<Action>, more: seq<Action>)
    requires Run(acts).closed
    ensures Run(acts + more).closed
  {
    hide Step;
    if more == [] {
      assert acts + more == acts;
    } else {
      var before, a := acts + more[..|more| - 1], more[|more| - 1];
      assert acts + more == before + [a];
      Unroll(before, a);
      StillClosed(acts, more[..|more| - 1]);
      ClosedStays(Run(before), a);
    }
  }

  // ---------------------------------------------------------------- progress

  /** A Poll that blocks in its send holds the mutex, so the channel is open and run is there to receive. */
  lemma SenderHasReceiver(acts: seq<Action>)
    requires Run(acts).holder == PulseSender
    ensures !Run(acts).closed && !Run(acts).runExited
    ensures Run(acts + [RunPulse]).holder == Nobody
  {
    InvHolds(acts);
    Unroll(acts, RunPulse);
  }

  /** While Close sleeps, an invocation is running or a broadcast is still owed: no wake-up is lost. */
  lemma NoLostWakeup(acts: seq<Action>)
    requires Run(acts).closer == Asleep
    ensures var s := Run(acts);
            || (s.running.Some? && s.running.value < |s.invocations| && Active(s.invocations[s.running.value]))
            || exists i :: 0 <= i < |s.invocations| && s.invocations[i] == Owing
  {
    InvHolds(acts);
  }

  lemma Wake(acts: seq<Action>, i: nat)
    requires Run(acts).closer == Asleep && At(Run(acts), i, Owing) && Run(acts).running == None
    ensures Run(acts + [Broadcast(i)] + [CloseWake] + [SourceClosed]).closer == Finished
  {
    InvHolds(acts);
    Unroll(acts, Broadcast(i));
    Unroll(acts + [Broadcast(i)], CloseWake);
    Unroll(acts + [Broadcast(i)] + [CloseWake], SourceClosed);
  }

  lemma Settle(acts: seq<Action>, i: nat) returns (done: seq<Action>)
    requires Run(acts).closer == Asleep && Run(acts).running == Some(i)
    ensures acts <= done && Run(done).closer == Asleep && At(Run(done), i, Owing) && Run(done).running == None
  {
    InvHolds(acts);
    assert Active(Run(acts).invocations[i]);
    done := acts;
    if At(Run(acts), i, Polling) {
      Unroll(acts, SourceReturns(i));
      done := acts + [SourceReturns(i)];
    }
    Unroll(done, Finish(i));
    done := done + [Finish(i)];
  }

  /** As long as source.Poll returns, a started Close can always run to its end. */
  lemma CloseCanFinish(acts: seq<Action>) returns (done: seq<Action>)
    requires Run(acts).closed
    ensures acts <= done && Run(done).closer == Finished
  {
    InvHolds(acts);
    done := acts;
    if Run(done).closer == Woken {
      Unroll(done, CloseWake);
      done := done + [CloseWake];
      InvHolds(done);
    }
    if Run(done).closer == Asleep {
      var i: nat;
      if Run(done).running.Some? {
        i := Run(done).running.value;
        done := Settle(done, i);
      } else {
        i :| 0 <= i < |Run(done).invocations| && Run(done).invocations[i] == Owing;
      }
      Wake(done, i);
      done := done + [Broadcast(i)] + [CloseWake] + [SourceClosed];
    } else if Run(done).closer == ClosingSource {
      Unroll(done, SourceClosed);
      done := done + [SourceClosed];
    }
  }
}
