/** poller/poller.go: the methods of `Poller`, each proved to be one step of the protocol. */
module Poller {
  import opened Base
  import opened PollerProtocol
  import opened PollerTheorems

  class Poller {
    var closed: bool
    var running: Option<nat>
    var canceled: bool
    var holder: Holder
    var closer: Closer
    var runExited: bool
    var invocations: seq<Invocation>
    var sourceCloses: nat

    function Snapshot(): State
      reads this
    {
      State(closed, running, canceled, holder, closer, runExited, invocations, sourceCloses)
    }

    ghost predicate Valid()
      reads this
    {
      Inv(Snapshot())
    }

    constructor ()
      ensures Valid() && Snapshot() == Init()
    {
      closed, running, canceled := false, None, false;
      holder, closer, runExited, invocations, sourceCloses := Nobody, NotClosing, false, [], 0;
    }

    /** Poll: takes the mutex and, unless closed, blocks in the send while it holds it. */
    method Poll()
      requires Valid() && holder == Nobody
      modifies this`holder
      ensures Valid() && Snapshot() == Step(old(Snapshot()), Pulse)
      ensures holder == PulseSender <==> !closed
    {
      if !closed {
        holder := PulseSender;
      }
    }

    /** run: one turn of its select on pulse, which spawns an invocation. */
    method ReceivePulse()
      requires Valid() && !runExited && (holder == PulseSender || closed)
      modifies this`holder, this`invocations
      ensures Valid() && Snapshot() == Step(old(Snapshot()), RunPulse)
      ensures holder != PulseSender && |invocations| == old(|invocations|) + 1
    {
      InvStep(Snapshot(), RunPulse);
      if holder == PulseSender {
        holder := Nobody;
      }
      invocations := invocations + [Spawned];
    }

    /** run: one turn of its select on the ticker, which spawns an invocation too. */
    method ReceiveTick()
      requires Valid() && !runExited
      modifies this`invocations
      ensures Valid() && Snapshot() == Step(old(Snapshot()), RunTicker)
    {
      InvStep(Snapshot(), RunTicker);
      invocations := invocations + [Spawned];
    }

    /** run: the turn on stop, which is closed together with pulse, ends it. */
    method ReceiveStop()
      requires Valid() && closed
      modifies this`runExited
      ensures Valid() && Snapshot() == Step(old(Snapshot()), RunStop)
    {
      InvStep(Snapshot(), RunStop);
      runExited := true;
    }

    method StartInvocation(i: nat) returns (acquired: bool)
      requires Valid() && holder == Nobody && At(Snapshot(), i, Spawned)
      modifies this`running, this`invocations
      ensures Valid() && Snapshot() == Step(old(Snapshot()), Start(i))
      ensures acquired <==> !closed && old(running) == None
      ensures acquired ==> running == Some(i) && forall j :: 0 <= j < |invocations| && j != i ==> !Active(invocations[j])
    {
      InvStep(Snapshot(), Start(i));
      if !closed && running == None {
        running := Some(i);
        invocations := invocations[i := Polling];
        return true;
      }
      invocations := invocations[i := Gone];
      return false;
    }

    /** source.Poll returns. */
    method SourcePolled(i: nat)
      requires Valid() && At(Snapshot(), i, Polling)
      modifies this`invocations
      ensures Valid() && Snapshot() == Step(old(Snapshot()), SourceReturns(i))
      ensures running == Some(i)
    {
      InvStep(Snapshot(), SourceReturns(i));
      assert Active(invocations[i]);
      invocations := invocations[i := Polled];
    }

    method FinishInvocation(i: nat)
      requires Valid() && holder == Nobody && At(Snapshot(), i, Polled)
      modifies this`running, this`invocations
      ensures Valid() && Snapshot() == Step(old(Snapshot()), Finish(i))
      ensures forall j :: 0 <= j < |invocations| ==> !Active(invocations[j])
    {
      InvStep(Snapshot(), Finish(i));
      running := None;
      invocations := invocations[i := Owing];
    }

    method BroadcastIdle(i: nat)
      requires Valid() && At(Snapshot(), i, Owing)
      modifies this`closer, this`invocations
      ensures Valid() && Snapshot() == Step(old(Snapshot()), Broadcast(i))
      ensures closer != Asleep
    {
      InvStep(Snapshot(), Broadcast(i));
      if closer == Asleep {
        closer := Woken;
      }
      invocations := invocations[i := Gone];
    }

    /** Close, up to its first sleep or to source.Close. */
    method Close()
      requires Valid() && holder == Nobody
      modifies this`closed, this`canceled, this`closer, this`holder
      ensures Valid() && Snapshot() == Step(old(Snapshot()), CloseBegin)
      ensures !old(closed) ==> (closer == Asleep <==> running.Some?) && (canceled <==> running.Some?)
    {
      InvStep(Snapshot(), CloseBegin);
      if closed {
        return;
      }
      closed := true;
      canceled := running.Some?;
      WaitWhileRunning();
    }

    /** One turn of the loop around idle.Wait; falling through it leads into source.Close. */
    method WaitWhileRunning()
      modifies this`closer, this`holder
      ensures Snapshot() == AwaitIdle(old(Snapshot()))
    {
      if running.Some? {
        closer := Asleep;
      } else {
        closer, holder := ClosingSource, SourceCloser;
      }
    }

    method Awake()
      requires Valid() && closer == Woken && holder == Nobody
      modifies this`closer, this`holder
      ensures Valid() && Snapshot() == Step(old(Snapshot()), CloseWake)
      ensures closer == ClosingSource ==> forall j :: 0 <= j < |invocations| ==> !Active(invocations[j])
    {
      InvStep(Snapshot(), CloseWake);
      WaitWhileRunning();
    }

    /** source.Close returns, and Close gives the mutex back. */
    method EndClose()
      requires Valid() && closer == ClosingSource
      modifies this`closer, this`holder, this`sourceCloses
      ensures Valid() && Snapshot() == Step(old(Snapshot()), SourceClosed)
      ensures holder == Nobody && sourceCloses == 1
    {
      InvStep(Snapshot(), SourceClosed);
      closer, holder, sourceCloses := Finished, Nobody, sourceCloses + 1;
    }
  }
}
