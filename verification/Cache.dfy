/** cache/cache.go: the methods of `Cache`.  Each method is one section that holds the lock (or one step of
    a goroutine outside it), and is proved to be that step of the protocol. */
module Cache {
  import opened Base
  import opened CacheProtocol
  import opened CacheCleaner

  /** What one attempt of Lookup comes to. */
  datatype Outcome = HitValue(value: Value) | Miss | Closed | Wait(p: nat)

  class Cache {
    const d: int
    var clock: int
    var open: bool
    var data: map<Key, Entry>
    var pending: map<Key, nat>
    var calls: seq<Call>
    var missed: multiset<Key>
    var readers: nat
    var writer: bool
    var nilLookup: bool
    var log: seq<Record>
    var cleaning: bool
    var cleaners: seq<Cleaner>
    var inserted: multiset<Value>   // every value ever stored
    var released: multiset<Value>   // every value handed to a release goroutine

    function View(): Core
      reads this
    {
      Core(d, clock, open, data, pending, calls, missed, readers, writer, nilLookup)
    }

    function Snapshot(): State
      reads this
    {
      State(View(), log, cleaning, cleaners, inserted, released)
    }

    ghost predicate Running()
      reads this
    {
      !nilLookup && CanWrite(View())
    }

    constructor (duration: int, now: int)
      ensures Snapshot() == Init(duration, now)
    {
      d, clock := duration, now;
      open, data, pending, calls := true, map[], map[], [];
      missed, readers, writer, nilLookup := multiset{}, 0, false, false;
      log, cleaning, cleaners := [], false, [];
      inserted, released := multiset{}, multiset{};
    }

    method TimePasses(n: nat)
      requires !nilLookup
      modifies this`clock
      ensures Snapshot() == Step(old(Snapshot()), Tick(n))
    {
      hide CleanerRunStep, StoreStep, Residents;
      clock := clock + n;
    }

    method Release(v: Value)
      modifies this`released
      ensures released == old(released) + multiset{v}
    {
      released := released + multiset{v};
    }

    /** set: overwrites the entry of `k`, logs it, and starts a cleaner if none runs. */
    method Put(timestamp: int, k: Key, v: Value)
      modifies this`data, this`log, this`cleaning, this`cleaners, this`inserted, this`released
      ensures data == old(data)[k := Entry(timestamp, v)]
      ensures log == old(log) + [Record(timestamp, k)]
      ensures cleaning
      ensures cleaners == if old(cleaning) then old(cleaners) else old(cleaners) + [Sleeping(log[0].ts)]
      ensures inserted == old(inserted) + multiset{v}
      ensures released == old(released) + if k in old(data) then multiset{old(data)[k].value} else multiset{}
    {
      Delete(k);
      data := data[k := Entry(timestamp, v)];
      inserted := inserted + multiset{v};
      log := log + [Record(timestamp, k)];
      SpawnCleanup();
    }

    method Delete(k: Key)
      modifies this`data, this`released
      ensures data == old(data) - {k}
      ensures released == old(released) + if k in old(data) then multiset{old(data)[k].value} else multiset{}
    {
      if k in data {
        Release(data[k].value);
        data := data - {k};
      } else {
        assert data == data - {k};
      }
    }

    method SpawnCleanup()
      modifies this`cleaning, this`cleaners
      ensures cleaning == (old(cleaning) || log != [])
      ensures cleaners == if log != [] && !old(cleaning) then old(cleaners) + [Sleeping(log[0].ts)] else old(cleaners)
    {
      if |log| > 0 && !cleaning {
        cleaning := true;
        cleaners := cleaners + [Sleeping(log[0].ts)];
      }
    }

    /** Set: `now` was read from the clock before the lock was taken. */
    method SetValue(now: int, k: Key, v: Value)
      requires Running() && now <= clock
      modifies this
      ensures Snapshot() == Step(old(Snapshot()), Set(now, k, v))
      ensures open ==> ValueOf(View(), k) == if now + d > clock then Some(v) else None
    {
      if !open {
        return;
      }
      Put(now, k, v);
    }

    /** Value; on a closed cache it returns without giving the read lock back. */
    method ReadValueOf(k: Key) returns (r: Option<Value>)
      requires !nilLookup && !writer
      modifies this`readers
      ensures Snapshot() == Step(old(Snapshot()), ReadValue(k))
      ensures r == if open then ValueOf(View(), k) else None
    {
      if !open {
        readers := readers + 1;
        return None;
      }
      r := Peek(k);
    }

    method Peek(k: Key) returns (r: Option<Value>)
      ensures r == ValueOf(View(), k)
    {
      if k in data {
        var expiration := data[k].ts + d;
        if expiration > clock {
          return Some(data[k].value);
        }
      }
      return None;
    }

    /** The first attempt of Lookup, under the read lock. */
    method LookupFirst(k: Key) returns (r: Outcome)
      requires !nilLookup && !writer
      modifies this`readers, this`missed
      ensures Snapshot() == Step(old(Snapshot()), LookupRead(k))
      ensures r == if !open then Closed else if Hit(View(), k) then HitValue(data[k].value) else Miss
    {
      ReadOf(Snapshot(), k);
      hide Step;
      if !open {
        readers := readers + 1;
        return Closed;
      }
      var value := Peek(k);
      if value.Some? {
        return HitValue(value.value);
      }
      missed := missed + multiset{k};
      return Miss;
    }

    /** The second attempt, under the write lock: the caller hits, or joins the one lookup of its key. */
    method LookupSecond(k: Key) returns (r: Outcome)
      requires Running() && k in missed
      modifies this`missed, this`writer, this`pending, this`calls
      ensures Snapshot() == Step(old(Snapshot()), LookupWrite(k))
      ensures match r
              case HitValue(v) => old(Hit(View(), k)) && v == data[k].value
              case Wait(p) => open && !old(Hit(View(), k)) && k in pending && pending[k] == p
              case Closed => !open && writer
              case Miss => false
      ensures r.Wait? && k in old(pending) ==> calls == old(calls)
    {
      JoinOf(Snapshot(), k);
      hide Step;
      missed := missed - multiset{k};
      if !open {
        writer := true;
        return Closed;
      }
      var value := Peek(k);
      if value.Some? {
        return HitValue(value.value);
      }
      if k !in pending {
        pending := pending[k := |calls|];
        calls := calls + [Call(k, Spawned)];
      }
      return Wait(pending[k]);
    }

    method RetrieveBegins(p: nat, canceled: bool)
      requires !nilLookup && InPhase(View(), p, Spawned)
      modifies this`calls, this`nilLookup
      ensures Snapshot() == Step(old(Snapshot()), RetrieveStart(p, canceled))
    {
      if canceled {
        calls := calls[p := calls[p].(phase := Abandoned)];
        return;
      }
      if !open {
        nilLookup := true;  // the lookup function has been cleared
        return;
      }
      calls := calls[p := calls[p].(phase := Querying)];
    }

    /** The lookup function returns, and retrieve reads the clock. */
    method LookupReturns(p: nat, answer: Answer)
      requires !nilLookup && InPhase(View(), p, Querying)
      modifies this`calls
      ensures Snapshot() == Step(old(Snapshot()), RetrieveReturn(p, answer))
    {
      calls := calls[p := calls[p].(phase := Returned(answer, clock))];
    }

    /** The end of retrieve: stores a success, forgets the lookup, and releases those who wait for it. */
    method RetrieveEnds(p: nat)
      requires Running() && p < |calls| && calls[p].phase.Returned?
      modifies this
      ensures Snapshot() == Step(old(Snapshot()), RetrieveStore(p))
      ensures |calls| == old(|calls|) && calls[p].phase == Complete(old(calls)[p].phase.answer)
    {
      StoreOf(Snapshot(), p);
      hide Step, CanWrite;
      var call := calls[p];
      if open {
        if call.phase.answer.Found? {
          Put(call.phase.at, call.key, call.phase.answer.value);
        }
        pending := pending - {call.key};
      }
      calls := calls[p := call.(phase := Complete(call.phase.answer))];
      assert View() == Step(old(Snapshot()), RetrieveStore(p)).core;
    }

    /** The loop with which Evict and Close release every resident value. */
    method ReleaseAll()
      modifies this`released
      ensures released == old(released) + Residents(data)
    {
      var rest := data;
      ghost var done: map<Key, Entry> := map[];
      ResidentsUnfold(done);
      while rest != map[]
        invariant released + Residents(rest) == old(released) + Residents(data)
        decreases |rest|
      {
        var k :| k in rest;
        ResidentsWithout(rest, k);
        released := released + multiset{rest[k].value};
        rest := rest - {k};
      }
      ResidentsUnfold(rest);
    }

    method EvictAll()
      requires Running()
      modifies this
      ensures Snapshot() == Step(old(Snapshot()), Evict)
      ensures open ==> data == map[] && released == old(released) + Residents(old(data))
      ensures pending == old(pending)
    {
      EvictOf(Snapshot());
      hide Step, Residents;
      if !open {
        return;
      }
      ReleaseAll();
      data, log := map[], [];
    }

    method CloseCache()
      requires Running()
      modifies this
      ensures Snapshot() == Step(old(Snapshot()), Close)
      ensures !open
    {
      CloseOf(Snapshot());
      hide Step;
      if !open {
        return;
      }
      ReleaseAll();
      open, data, pending, log := false, map[], map[], [];
    }

    /** validate: pops the records that have expired, and deletes what they name if that has expired too. */
    method Validate(now: int) returns (next: int, more: bool)
      modifies this`data, this`log, this`released
      ensures var n := Popped(old(log), d, now);
              && log == old(log)[n..]
              && data == Kept(old(data), old(log)[..n], d, now)
              && released == old(released) + Residents(Dropped(old(data), old(log)[..n], d, now))
              && more == (n < |old(log)|)
              && (more ==> next == log[0].ts + d && next > now)
    {
      hide Popped, Kept, Dropped, Residents;
      ghost var start, all := data, log;
      ghost var done := 0;
      NothingPopped(start, all, d, now);
      while |log| > 0
        invariant done <= |all| && log == all[done..]
        invariant forall i :: 0 <= i < done ==> all[i].ts + d <= now
        invariant data == Kept(start, all[..done], d, now)
        invariant released == old(released) + Residents(Dropped(start, all[..done], d, now))
        decreases |log|
      {
        var expiration := log[0].ts + d;
        if expiration > now {
          PoppedIs(all, d, now, done);
          return expiration, true;
        }
        var k := log[0].key;
        PopNext(start, all, d, now, done);
        if k in data {
          expiration := data[k].ts + d;
          if expiration < now {
            Release(data[k].value);
            data := data - {k};
          }
        }
        log := log[1..];
        done := done + 1;
      }
      PoppedIs(all, d, now, done);
      return 0, false;
    }

    /** cleanup, outside the lock: sleeps until its time, and reads the clock. */
    method WakeCleaner(i: nat)
      requires !nilLookup && i < |cleaners| && cleaners[i].Sleeping? && cleaners[i].next <= clock
      modifies this`cleaners
      ensures Snapshot() == Step(old(Snapshot()), CleanerWake(i))
    {
      cleaners := cleaners[i := Due(clock)];
    }

    /** One pass of the cleanup loop of cleaner `i`, which holds the lock and has read the time. */
    method CleanupPass(i: nat)
      requires Running() && i < |cleaners| && cleaners[i].Due?
      modifies this
      ensures Snapshot() == Step(old(Snapshot()), CleanerRun(i))
      ensures forall k :: k in data ==> k in old(data) && data[k] == old(data)[k]
    {
      var next, more := Validate(cleaners[i].now);
      if !more {
        cleaning := false;
        cleaners := cleaners[..i] + cleaners[i + 1..];
        return;
      }
      cleaners := cleaners[i := Sleeping(next)];
    }
  }

  lemma StoreOf(s: State, p: nat)
    requires !s.core.nilLookup && CanWrite(s.core) && p < |s.core.calls| && s.core.calls[p].phase.Returned?
    ensures var call := s.core.calls[p];
            var c := s.core.(calls := s.core.calls[p := call.(phase := Complete(call.phase.answer))]);
            var forgotten := c.(pending := c.pending - {call.key});
            Step(s, RetrieveStore(p)) ==
              if !c.open then s.(core := c)
              else if call.phase.answer.Failed? then s.(core := forgotten)
              else
                var log := s.log + [Record(call.phase.at, call.key)];
                State(forgotten.(data := c.data[call.key := Entry(call.phase.at, call.phase.answer.value)]),
                      log, true, if s.cleaning then s.cleaners else s.cleaners + [Sleeping(log[0].ts)],
                      s.inserted + multiset{call.phase.answer.value},
                      s.released + if call.key in c.data then multiset{c.data[call.key].value} else multiset{})
  {
  }

  lemma EvictOf(s: State)
    requires !s.core.nilLookup && CanWrite(s.core)
    ensures Step(s, Evict) ==
              if !s.core.open then s
              else s.(core := s.core.(data := map[]), log := [], released := s.released + Residents(s.core.data))
  {
  }

  lemma ReadOf(s: State, k: Key)
    requires !s.core.nilLookup && !s.core.writer
    ensures Step(s, LookupRead(k)) == s.(core :=
              if !s.core.open then s.core.(readers := s.core.readers + 1)
              else if Hit(s.core, k) then s.core
              else s.core.(missed := s.core.missed + multiset{k}))
  {
  }

  lemma CloseOf(s: State)
    requires !s.core.nilLookup && CanWrite(s.core)
    ensures Step(s, Close) ==
              if !s.core.open then s
              else s.(core := s.core.(open := false, data := map[], pending := map[]), log := [],
                      released := s.released + Residents(s.core.data))
  {
  }

  lemma JoinOf(s: State, k: Key)
    requires !s.core.nilLookup && CanWrite(s.core) && k in s.core.missed
    ensures var c := s.core.(missed := s.core.missed - multiset{k});
            Step(s, LookupWrite(k)) == s.(core :=
              if !c.open then c.(writer := true)
              else if Hit(c, k) || k in c.pending then c
              else c.(pending := c.pending[k := |c.calls|], calls := c.calls + [Call(k, Spawned)]))
  {
  }

  lemma NothingPopped(data: map<Key, Entry>, log: seq<Record>, d: int, now: int)
    ensures Kept(data, log[..0], d, now) == data
    ensures Residents(Dropped(data, log[..0], d, now)) == multiset{}
  {
    assert Dropped(data, log[..0], d, now) == map[];
    ResidentsUnfold(map[]);
  }

  lemma PoppedIs(log: seq<Record>, d: int, now: int, n: nat)
    requires n <= |log| && (forall i :: 0 <= i < n ==> log[i].ts + d <= now)
    requires n < |log| ==> log[n].ts + d > now
    ensures Popped(log, d, now) == n
  {
    var m := Popped(log, d, now);
  }

  /** What the next popped record adds to the doomed entries: at most its own key. */
  lemma PopNext(data: map<Key, Entry>, log: seq<Record>, d: int, now: int, n: nat)
    requires n < |log|
    ensures var k := log[n].key;
            var kept, dropped := Kept(data, log[..n], d, now), Dropped(data, log[..n], d, now);
            var kept', dropped' := Kept(data, log[..n + 1], d, now), Dropped(data, log[..n + 1], d, now);
            if k in kept && kept[k].ts + d < now then
              kept' == kept - {k} && Residents(dropped') == Residents(dropped) + multiset{kept[k].value}
            else
              kept' == kept && dropped' == dropped
  {
    hide Residents;
    var k := log[n].key;
    NamesNext(log, n);
    var kept, dropped := Kept(data, log[..n], d, now), Dropped(data, log[..n], d, now);
    var kept', dropped' := Kept(data, log[..n + 1], d, now), Dropped(data, log[..n + 1], d, now);
    if k in kept && kept[k].ts + d < now {
      assert kept' == kept - {k};
      assert k in dropped' && dropped' - {k} == dropped;
      ResidentsWithout(dropped', k);
    } else {
      assert kept' == kept;
      assert dropped' == dropped;
    }
  }

  lemma NamesNext(log: seq<Record>, n: nat)
    requires n < |log|
    ensures forall k :: Names(log[..n + 1], k) <==> Names(log[..n], k) || k == log[n].key
  {
    forall k ensures Names(log[..n + 1], k) <==> Names(log[..n], k) || k == log[n].key {
      if Names(log[..n], k) {
        var i :| 0 <= i < n && log[..n][i].key == k;
        assert log[..n + 1][i].key == k;
      }
      if k == log[n].key {
        assert log[..n + 1][n].key == k;
      }
      if Names(log[..n + 1], k) && k != log[n].key {
        var i :| 0 <= i < n + 1 && log[..n + 1][i].key == k;
        assert log[..n][i].key == k;
      }
    }
  }
}
