/** monitor/broadcaster.go: the list of channels on which updates are announced.

    Channels are numbered as Listen makes them; each keeps the numbers of the updates sent on it.  A send
    that finds no room leaves Broadcast waiting in its loop, with the mutex held. */
module Broadcaster {
  import opened Base

  /** begun counts the receives that consumers have started, which may be ahead of the sends. */
  datatype Channel = Channel(cap: nat, sent: seq<nat>, begun: nat, closed: bool)

  /** A send goes through if a receiver waits or the buffer has room; both come down to this. */
  predicate HasRoom(c: Channel) { |c.sent| < c.begun + c.cap }

  function Without(s: seq<nat>, ch: nat): seq<nat> {
    if s == [] then []
    else if s[|s| - 1] == ch then Without(s[..|s| - 1], ch)
    else Without(s[..|s| - 1], ch) + [s[|s| - 1]]
  }

  lemma WithoutNext(s: seq<nat>, ch: nat, k: nat)
    requires k < |s|
    ensures Without(s[..k + 1], ch) == if s[k] == ch then Without(s[..k], ch) else Without(s[..k], ch) + [s[k]]
  {
    assert s[..k + 1][..k] == s[..k];
  }

  /** Removal keeps the rest, in order and without repetition. */
  lemma {:induction false} WithoutKeeps(s: seq<nat>, ch: nat)
    requires Distinct(s)
    ensures Distinct(Without(s, ch))
    ensures forall x :: x in Without(s, ch) <==> x in s && x != ch
  {
    if s == [] {
    } else {
      var rest, last := s[..|s| - 1], s[|s| - 1];
      WithoutKeeps(rest, ch);
      assert s == rest + [last];
      assert last !in rest;
      assert forall i :: 0 <= i < |Without(rest, ch)| ==> Without(rest, ch)[i] in Without(rest, ch);
    }
  }

  predicate InRange(regs: seq<nat>, n: nat) {
    forall i :: 0 <= i < |regs| ==> regs[i] < n
  }

  /** The channels after update first + i has been sent on the i-th of `regs`. */
  function Announced(cs: seq<Channel>, regs: seq<nat>, first: nat): (r: seq<Channel>)
    requires InRange(regs, |cs|)
    ensures |r| == |cs|
  {
    if regs == [] then cs
    else
      var last := |regs| - 1;
      var before := Announced(cs, regs[..last], first);
      before[regs[last] := before[regs[last]].(sent := before[regs[last]].sent + [first + last])]
  }

  /** Every registered channel gets exactly one update, its own; no other channel changes. */
  lemma {:induction false} AnnouncedOnce(cs: seq<Channel>, regs: seq<nat>, first: nat, l: nat)
    requires InRange(regs, |cs|) && Distinct(regs) && l < |cs|
    ensures var r := Announced(cs, regs, first);
            && r[l].closed == cs[l].closed
            && (l !in regs ==> r[l] == cs[l])
            && forall i :: 0 <= i < |regs| && regs[i] == l ==> r[l].sent == cs[l].sent + [first + i]
  {
    if regs == [] {
    } else {
      var last := |regs| - 1;
      var earlier := regs[..last];
      var before := Announced(cs, earlier, first);
      AnnouncedOnce(cs, earlier, first, l);
      assert Announced(cs, regs, first)
             == before[regs[last] := before[regs[last]].(sent := before[regs[last]].sent + [first + last])];
      hide Announced;
      assert regs == earlier + [regs[last]];
      assert regs[last] !in earlier;
      forall i | 0 <= i < |regs| && regs[i] == l
        ensures Announced(cs, regs, first)[l].sent == cs[l].sent + [first + i]
      {
        assert i < last ==> earlier[i] == l;
      }
    }
  }

  /** The channels `now`, after the updates from `first` on went to `regs`; consumers may have received. */
  ghost predicate Delivered(cs: seq<Channel>, regs: seq<nat>, first: nat, now: seq<Channel>)
    requires InRange(regs, |cs|)
  {
    && |now| == |cs|
    && forall l :: 0 <= l < |cs| ==>
         now[l] == Announced(cs, regs, first)[l].(begun := now[l].begun) && now[l].begun >= cs[l].begun
  }

  lemma DeliverNext(cs: seq<Channel>, regs: seq<nat>, k: nat, first: nat, now: seq<Channel>)
    requires k < |regs| && InRange(regs, |cs|) && InRange(regs[..k], |cs|)
    requires Delivered(cs, regs[..k], first, now)
    ensures InRange(regs[..k + 1], |cs|)
    ensures var c := now[regs[k]];
            Delivered(cs, regs[..k + 1], first, now[regs[k] := c.(sent := c.sent + [first + k])])
  {
    assert regs[..k + 1][..k] == regs[..k];
    assert regs[..k + 1][k] == regs[k];
  }

  function ClosedAll(cs: seq<Channel>, regs: seq<nat>): seq<Channel> {
    seq(|cs|, l requires 0 <= l < |cs| => if l in regs then cs[l].(closed := true) else cs[l])
  }

  /** Removal works on each part of a list alone, so that the rest keeps its order. */
  lemma {:induction false} WithoutParts(s: seq<nat>, t: seq<nat>, ch: nat)
    ensures Without(s + t, ch) == Without(s, ch) + Without(t, ch)
  {
    if t == [] {
      assert s + t == s;
    } else {
      hide Without;
      var rest, last := t[..|t| - 1], t[|t| - 1];
      WithoutParts(s, rest, ch);
      WithoutAppend(s + rest, last, ch);
      WithoutAppend(rest, last, ch);
      assert t == rest + [last];
      Assoc(s, rest, [last]);
      Assoc(Without(s, ch), Without(rest, ch), [last]);
    }
  }

  lemma WithoutAppend(s: seq<nat>, x: nat, ch: nat)
    ensures Without(s + [x], ch) == if x == ch then Without(s, ch) else Without(s, ch) + [x]
  {
    assert (s + [x])[..|s|] == s;
  }

  /** The list names each channel that has not been closed, once, and no other. */
  ghost predicate Agree(regs: seq<nat>, cs: seq<Channel>) {
    && Distinct(regs)
    && InRange(regs, |cs|)
    && (forall l :: 0 <= l < |cs| ==> (cs[l].closed <==> l !in regs))
  }

  class Broadcaster {
    var listeners: seq<nat>
    var closed: bool
    var channels: seq<Channel>      // every channel that Listen has made
    var updates: nat                // how many updates have been sent
    var sending: Option<nat>        // Broadcast holds the mutex and is about to send to this listener
    ghost var before: seq<Channel>  // the channels when the last Broadcast began, and the updates then
    ghost var first: nat

    /** The registered channels are exactly those that have not been closed; no buffer overflows; and a
        Broadcast in progress has served the listeners before its position, each with its own update. */
    ghost predicate Valid()
      reads this
    {
      && Agree(listeners, channels)
      && (closed ==> listeners == [])
      && (forall l :: 0 <= l < |channels| ==> |channels[l].sent| <= channels[l].begun + channels[l].cap)
      && (sending.Some? ==>
            && sending.value < |listeners|
            && updates == first + sending.value
            && |before| == |channels|
            && InRange(listeners[..sending.value], |before|)
            && Delivered(before, listeners[..sending.value], first, channels))
    }

    constructor ()
      ensures Valid() && listeners == [] && channels == [] && !closed && sending == None
    {
      listeners, closed, channels, updates, sending := [], false, [], 0, None;
    }

    /** A listener that comes after Close gets a closed channel. */
    method Listen(chanSize: nat) returns (ch: nat)
      requires Valid() && sending == None
      modifies this`listeners, this`channels
      ensures Valid()
      ensures ch == old(|channels|) && channels == old(channels) + [Channel(chanSize, [], 0, closed)]
      ensures listeners == if closed then old(listeners) else old(listeners) + [ch]
    {
      ch := |channels|;
      if !closed {
        listeners := listeners + [ch];
        channels := channels + [Channel(chanSize, [], 0, false)];
      } else {
        channels := channels + [Channel(chanSize, [], 0, true)];
      }
    }

    /** A consumer starts a receive on its channel, for which it needs no mutex. */
    method Receive(ch: nat)
      requires Valid() && ch < |channels|
      modifies this`channels
      ensures Valid()
      ensures channels == old(channels)[ch := old(channels)[ch].(begun := old(channels)[ch].begun + 1)]
      ensures HasRoom(channels[ch])
    {
      channels := channels[ch := channels[ch].(begun := channels[ch].begun + 1)];
    }

    /** Removes `ch` wherever it stands in the list and closes it, once. */
    method Unlisten(ch: nat) returns (found: bool)
      requires Valid() && sending == None
      modifies this`listeners, this`channels
      ensures Valid()
      ensures found <==> ch in old(listeners)
      ensures listeners == Without(old(listeners), ch)
      ensures channels == if found then ClosedAll(old(channels), [ch]) else old(channels)
    {
      ghost var k, orig, cs := 0, listeners, channels;
      assert Agree(orig, cs);
      assert Without(orig[..0], ch) == [];
      hide Without, ClosedAll, Distinct, Agree, InRange;
      found := false;
      var i := 0;
      while i < |listeners|
        invariant 0 <= i <= |listeners| && k <= |orig| && |listeners| - i == |orig| - k
        invariant listeners[..i] == Without(orig[..k], ch) && listeners[i..] == orig[k..]
        invariant found <==> ch in orig[..k]
        invariant channels == if found then ClosedAll(cs, [ch]) else cs
        decreases |listeners| - i
      {
        var entry := listeners[i];
        Advance(orig, cs, ch, k, listeners, i);
        k := k + 1;
        if entry != ch {
          i := i + 1;
          continue;
        }
        assert !found && !channels[entry].closed;
        found := true;
        if i + 1 < |listeners| {
          listeners := listeners[..i] + listeners[i + 1..];
        } else {
          listeners := listeners[..i];
        }
        CloseOne(channels, entry);
        channels := channels[entry := channels[entry].(closed := true)];
      }
      assert listeners == listeners[..i] && orig[..k] == orig;
      UnlistenKeeps(cs, orig, ch, found);
    }

    /** Broadcast takes the mutex and, if there is anyone to tell, enters its loop. */
    method Broadcast()
      requires Valid() && sending == None
      modifies this`sending, this`before, this`first
      ensures Valid() && sending == if listeners == [] then None else Some(0)
      ensures before == channels && first == updates
    {
      before, first := channels, updates;
      if |listeners| == 0 {
        return;
      }
      sending := Some(0);
      assert listeners[..0] == [];
    }

    /** One turn of its loop: a new update goes to the next listener if its channel, which is never closed,
        has room; otherwise Broadcast stays where it is.  After the last, every listener has its update. */
    method SendNext() returns (sent: bool)
      requires Valid() && sending.Some?
      modifies this`channels, this`updates, this`sending
      ensures Valid()
      ensures sent <==> old(HasRoom(channels[listeners[sending.value]]))
      ensures !sent ==> channels == old(channels) && sending == old(sending) && updates == old(updates)
      ensures sent ==> sending == if old(sending).value + 1 < |listeners| then Some(old(sending).value + 1) else None
      ensures sending == None ==>
                updates == first + |listeners| && |before| == |channels| && Delivered(before, listeners, first, channels)
    {
      var i := sending.value;
      var listener := listeners[i];
      assert listener in listeners;
      assert !channels[listener].closed;
      if |channels[listener].sent| >= channels[listener].begun + channels[listener].cap {
        return false;
      }
      DeliverNext(before, listeners, i, first, channels);
      hide Delivered;
      channels := channels[listener := channels[listener].(sent := channels[listener].sent + [updates])];
      updates := updates + 1;
      sending := if i + 1 < |listeners| then Some(i + 1) else None;
      assert listeners[..|listeners|] == listeners;
      return true;
    }

    /** Closes each registered channel, once. */
    method Close()
      requires Valid() && sending == None
      modifies this`closed, this`listeners, this`channels
      ensures Valid() && closed && listeners == []
      ensures channels == ClosedAll(old(channels), old(listeners))
      ensures forall l :: 0 <= l < |channels| ==> channels[l].closed
    {
      if closed {
        return;
      }
      closed := true;
      ghost var cs := channels;
      for i := 0 to |listeners|
        invariant closed && listeners == old(listeners)
        invariant channels == ClosedAll(cs, listeners[..i])
      {
        var listener := listeners[i];
        assert listener in listeners;
        assert listener !in listeners[..i] && !channels[listener].closed;
        channels := channels[listener := channels[listener].(closed := true)];
        assert listeners[..i + 1] == listeners[..i] + [listener];
      }
      assert listeners[..|listeners|] == listeners;
      listeners := [];
    }
  }

  /** When Broadcast has served all of `regs`, each of them has been sent one update more, its own. */
  lemma EveryoneIsTold(cs: seq<Channel>, regs: seq<nat>, first: nat, now: seq<Channel>, l: nat)
    requires InRange(regs, |cs|) && Distinct(regs) && l < |cs| && Delivered(cs, regs, first, now)
    ensures l !in regs ==> now[l].sent == cs[l].sent
    ensures forall i :: 0 <= i < |regs| && regs[i] == l ==> now[l].sent == cs[l].sent + [first + i]
  {
    AnnouncedOnce(cs, regs, first, l);
  }

  /** Unlisten keeps the agreement between the list and the channels. */
  lemma UnlistenKeeps(cs: seq<Channel>, orig: seq<nat>, ch: nat, found: bool)
    requires Agree(orig, cs) && (found <==> ch in orig)
    ensures Agree(Without(orig, ch), if found then ClosedAll(cs, [ch]) else cs)
  {
    WithoutKeeps(orig, ch);
    hide Without;
    assert forall j :: 0 <= j < |Without(orig, ch)| ==> Without(orig, ch)[j] in Without(orig, ch);
    assert forall j :: 0 <= j < |orig| ==> orig[j] in orig;
  }

  /** One turn of Unlisten's loop: `now` is the list, of which i entries are kept; k of `orig` are done. */
  lemma Advance(orig: seq<nat>, cs: seq<Channel>, ch: nat, k: nat, now: seq<nat>, i: nat)
    requires Agree(orig, cs)
    requires i < |now| && |now| - i == |orig| - k
    requires now[..i] == Without(orig[..k], ch) && now[i..] == orig[k..]
    ensures now[i] < |cs| && !cs[now[i]].closed
    ensures now[i + 1..] == orig[k + 1..]
    ensures Without(orig[..k + 1], ch) == if now[i] == ch then now[..i] else now[..i + 1]
    ensures ch in orig[..k + 1] <==> ch in orig[..k] || now[i] == ch
    ensures now[i] == ch ==> ch !in orig[..k]
    ensures (now[..i] + now[i + 1..])[..i] == now[..i] && (now[..i] + now[i + 1..])[i..] == now[i + 1..]
    ensures now[i + 1..] == [] ==> now[..i] + now[i + 1..] == now[..i]
  {
    assert now[i] == now[i..][0] && orig[k] == orig[k..][0];
    assert orig[k] in orig && orig[k] !in orig[..k];
    WithoutNext(orig, ch, k);
    hide Without, Agree, Distinct;
    assert now[i + 1..] == now[i..][1..] && orig[k + 1..] == orig[k..][1..];
    assert orig[..k + 1] == orig[..k] + [orig[k]];
    assert now[..i + 1] == now[..i] + [now[i]];
  }

  lemma CloseOne(cs: seq<Channel>, l: nat)
    requires l < |cs|
    ensures ClosedAll(cs, [l]) == cs[l := cs[l].(closed := true)]
  {
  }
}
