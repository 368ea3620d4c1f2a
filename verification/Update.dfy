/** monitor/update.go: the methods of `Update` and `updateListener`, each proved to be one step of the
    protocol.  Every method body is one mutex-held section (or one goroutine), so it is atomic. */
module Update {
  import opened Base
  import opened Dfsr
  import opened UpdateProtocol
  import opened UpdateInvariant

  class Update {
    const size: nat
    var canceled: bool
    var values: seq<Backlog>
    var received: int            // the WaitGroup that guards values
    var remaining: int
    var slice: seq<nat>          // u.listeners: the listener whose current copy is in each slot
    var capacity: nat            // cap(u.listeners)
    var listeners: seq<Listener> // every channel handed out so far, with the structs that feed it
    var fault: Fault

    function Snapshot(): State
      reads this
    {
      State(size, canceled, values, received, remaining, slice, capacity, listeners, fault)
    }

    /** The process is alive and the bookkeeping is that of some run. */
    ghost predicate Valid()
      reads this
    {
      fault == NoFault && Shape(Snapshot())
    }

    constructor (size: nat)
      ensures Valid() && Snapshot() == Init(size)
    {
      this.size := size;
      canceled, values, received, remaining := false, [], size, size;
      slice, capacity, listeners, fault := [], 2, [], NoFault;
    }

    /** Returns the number of the new listener's channel. */
    method Listen(grow: nat) returns (id: nat)
      requires Valid()
      modifies this
      ensures Valid() && Snapshot() == Step(old(Snapshot()), Action.Listen(grow))
      ensures id == old(|listeners|) && |listeners| == id + 1
      ensures listeners[id].ch.sent == values && listeners[id].ch.cap == size
    {
      ShapeStep(Snapshot(), Action.Listen(grow));
      id := |listeners|;
      var ch := Channel(size, [], 0, false);
      if size == 0 {
        ch := ch.(closed := true);
        listeners := listeners + [Listener(ch, [])];
        return;
      }
      for i := 0 to |values|
        invariant ch == Channel(size, values[..i], 0, false)
      {
        assert |ch.sent| < ch.cap;  // the replay never blocks
        ch := ch.(sent := ch.sent + [values[i]]);
      }
      assert values[..|values|] == values;
      if canceled {
        ch := ch.(closed := true);
        listeners := listeners + [Listener(ch, [])];
        return;
      }
      if |slice| >= capacity {
        listeners := RecopyAll(listeners, slice);
        capacity := if grow > |slice| then grow else |slice| + 1;
      }
      slice := slice + [id];
      listeners := listeners + [Listener(ch, [NewCopy(remaining)])];
    }

    /** Takes one backlog value and spawns its delivery to every registered listener. */
    method Send(backlog: Backlog)
      requires Valid()
      modifies this
      ensures Snapshot() == Step(old(Snapshot()), Action.Send(backlog))
      ensures fault == NoFault ==> Valid()
      ensures fault != NoFault <==> !old(canceled) && old(|values|) == size
    {
      if canceled {
        return;
      }
      if remaining == 0 {
        fault := SendAfterDone;
        return;
      }
      ShapeStep(Snapshot(), Action.Send(backlog));
      var snapshot := slice;
      values := values + [backlog];
      received := received - 1;
      remaining := remaining - 1;
      if remaining == 0 {
        slice, capacity := [], 0;
      }
      SpawnSends(snapshot, backlog);
    }

    /** The loop over the snapshot of the slice, which spawns one delivery for each listener. */
    method SpawnSends(snapshot: seq<nat>, backlog: Backlog)
      requires Distinct(snapshot) && forall l :: l in snapshot ==> l < |listeners|
      modifies this`listeners
      ensures listeners == PostAll(old(listeners), snapshot, backlog)
    {
      for i := 0 to |snapshot|
        invariant listeners == PostAll(old(listeners), snapshot[..i], backlog)
      {
        var l := snapshot[i];
        assert l in snapshot;
        SpawnNext(old(listeners), snapshot, i, backlog);
        listeners := listeners[l := Post(listeners[l], backlog)];
      }
      assert snapshot[..|snapshot|] == snapshot;
    }

    /** Stops the round and spawns the closing of every registered listener. */
    method Cancel()
      requires Valid()
      modifies this
      ensures Valid() && Snapshot() == Step(old(Snapshot()), Action.Cancel)
      ensures values == old(values)
      ensures old(remaining) > 0 ==> canceled && received == 0
    {
      if canceled || remaining == 0 {
        return;
      }
      ShapeStep(Snapshot(), Action.Cancel);
      var snapshot := slice;
      canceled := true;
      slice, capacity := [], 0;
      received := received - remaining;
      for i := 0 to |snapshot|
        invariant unchanged(this`values, this`remaining, this`fault)
        invariant canceled && received == 0 && slice == [] && capacity == 0
        invariant listeners == PostCancelAll(old(listeners), snapshot[..i])
      {
        var l := snapshot[i];
        assert l in snapshot;
        SpawnCancelNext(old(listeners), snapshot, i);
        listeners := listeners[l := PostCancel(listeners[l])];
      }
      assert snapshot[..|snapshot|] == snapshot;
    }

    /** updateListener.send: one waiting goroutine delivers `v` through struct copy `g`. */
    method DeliverSend(l: nat, g: nat, v: Backlog)
      requires Valid() && CanRunSend(Snapshot(), l, g, v)
      modifies this
      ensures Snapshot() == Step(old(Snapshot()), RunSend(l, g, v))
      ensures fault == NoFault ==> Valid()
    {
      var x := listeners[l];
      var c := x.copies[g].(inbox := x.copies[g].inbox - multiset{v});
      if c.open {
        if x.ch.closed {
          fault := SendOnClosed;
          return;
        }
        if |x.ch.sent| >= x.ch.taken + x.ch.cap {
          fault := BlockedSend;
          return;
        }
        x := x.(ch := x.ch.(sent := x.ch.sent + [v]));
        c := c.(remaining := c.remaining - 1);
        if c.remaining == 0 {
          x := x.(ch := x.ch.(closed := true));
          c := c.(open := false);
        }
      }
      ShapeStep(Snapshot(), RunSend(l, g, v));
      listeners := listeners[l := x.(copies := x.copies[g := c])];
    }

    /** updateListener.cancel, run on struct copy `g`. */
    method DeliverClose(l: nat, g: nat)
      requires Valid() && CanRunCancel(Snapshot(), l, g)
      modifies this
      ensures Snapshot() == Step(old(Snapshot()), RunCancel(l, g))
      ensures fault == NoFault ==> Valid()
    {
      var x := listeners[l];
      var c := x.copies[g].(cancels := x.copies[g].cancels - 1);
      if c.open {
        if x.ch.closed {
          fault := CloseOfClosed;
          return;
        }
        x := x.(ch := x.ch.(closed := true));
        c := c.(open := false);
      }
      ShapeStep(Snapshot(), RunCancel(l, g));
      listeners := listeners[l := x.(copies := x.copies[g := c])];
    }

    /** The consumer of channel `l` takes the next value. */
    method Receive(l: nat) returns (v: Backlog)
      requires Valid() && l < |listeners| && listeners[l].ch.taken < |listeners[l].ch.sent|
      modifies this`listeners
      ensures Valid() && Snapshot() == Step(old(Snapshot()), Action.Receive(l))
      ensures v == old(listeners)[l].ch.sent[old(listeners)[l].ch.taken]
    {
      ShapeStep(Snapshot(), Action.Receive(l));
      var ch := listeners[l].ch;
      listeners := listeners[l := listeners[l].(ch := ch.(taken := ch.taken + 1))];
      return ch.sent[ch.taken];
    }
  }

  lemma SpawnNext(ls: seq<Listener>, slice: seq<nat>, i: nat, v: Backlog)
    requires i < |slice| && Distinct(slice) && slice[i] < |ls|
    ensures var done := PostAll(ls, slice[..i], v);
            PostAll(ls, slice[..i + 1], v) == done[slice[i] := Post(done[slice[i]], v)]
  {
    assert slice[..i + 1] == slice[..i] + [slice[i]];
    assert slice[i] !in slice[..i];
  }

  lemma SpawnCancelNext(ls: seq<Listener>, slice: seq<nat>, i: nat)
    requires i < |slice| && Distinct(slice) && slice[i] < |ls|
    ensures var done := PostCancelAll(ls, slice[..i]);
            PostCancelAll(ls, slice[..i + 1]) == done[slice[i] := PostCancel(done[slice[i]])]
  {
    assert slice[..i + 1] == slice[..i] + [slice[i]];
    assert slice[i] !in slice[..i];
  }
}
