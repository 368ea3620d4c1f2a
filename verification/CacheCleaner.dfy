/** The cleaner of cache/cache.go: when it runs, and what it releases. */
module CacheCleaner {
  import opened Base
  import opened CacheProtocol
  import opened CacheTheorems

  // ---------------------------------------------------------------- one cleaner, while there is work

  ghost predicate Alive(s: State) {
    && |s.cleaners| == (if s.cleaning then 1 else 0)
    && (s.log != [] ==> s.core.open && s.cleaning)
  }

  lemma OpenFrame(c: Core, a: Action)
    ensures CoreStep(c, a).open == if a.Close? && CanWrite(c) && !c.nilLookup then false else c.open
  {
  }

  lemma AliveStep(s: State, a: Action)
    requires Alive(s)
    ensures Alive(Step(s, a))
  {
    OpenFrame(s.core, a);
    hide CoreStep;
  }

  /** `cleaning` holds exactly while one cleanup goroutine is alive, and no log is left without one. */
  lemma {:induction false} OneCleaner(d: int, clock: int, acts: seq<Action>)
    ensures var s := Run(d, clock, acts);
            && |s.cleaners| == (if s.cleaning then 1 else 0)
            && (s.log != [] ==> s.core.open && s.cleaning)
  {
    hide Step;
    if acts == [] {
    } else {
      OneCleaner(d, clock, acts[..|acts| - 1]);
      AliveStep(Run(d, clock, acts[..|acts| - 1]), acts[|acts| - 1]);
    }
  }

  ghost predicate Sorted(times: seq<int>) {
    forall i, j :: 0 <= i < j < |times| ==> times[i] <= times[j]
  }

  /** The log holds the most recent of the stored timestamps, and no cleaner sleeps past the first. */
  ghost predicate InTime(s: State, times: seq<int>) {
    && |s.log| <= |times|
    && (forall i :: 0 <= i < |s.log| ==> s.log[i].ts == times[|times| - |s.log| + i])
    && forall i :: 0 <= i < |s.cleaners| && s.cleaners[i].Sleeping? ==>
         && times != []
         && s.cleaners[i].next <= times[|times| - 1] + s.core.d
         && (s.log != [] ==> s.cleaners[i].next <= s.log[0].ts + s.core.d)
  }

  function NewTimes(s: State, a: Action): seq<int> {
    if !s.core.nilLookup && Stored(s.core, a).Some? then [Stored(s.core, a).value.1.ts] else []
  }

  lemma InTimeStore(s: State, a: Action, times: seq<int>)
    requires Alive(s) && InTime(s, times) && s.core.d >= 0
    requires !s.core.nilLookup && Stored(s.core, a).Some? && Sorted(times + NewTimes(s, a))
    ensures InTime(StoreStep(s, a), times + NewTimes(s, a))
  {
    CoreFrame(s.core, a);
    hide CoreStep;
    var ts := Stored(s.core, a).value.1.ts;
    var all := times + [ts];
    assert forall i :: 0 <= i < |times| ==> all[i] == times[i] && all[i] <= all[|times|];
  }

  lemma InTimeSweep(s: State, i: nat, times: seq<int>)
    requires Alive(s) && InTime(s, times) && Sorted(times)
    ensures InTime(CleanerRunStep(s, i), times)
  {
    hide Kept, Dropped, Residents;
  }

  lemma InTimeStep(s: State, a: Action, times: seq<int>)
    requires Alive(s) && InTime(s, times) && s.core.d >= 0
    requires Sorted(times + NewTimes(s, a))
    ensures InTime(Step(s, a), times + NewTimes(s, a))
  {
    CoreFrame(s.core, a);
    assert Stored(s.core, a).Some? ==> a.Set? || a.RetrieveStore?;
    hide CoreStep, Stored, StoreStep, CleanerRunStep, Residents, Sorted;
    assert times + [] == times;
    if !s.core.nilLookup && Stored(s.core, a).Some? {
      InTimeStore(s, a, times);
    } else if a.CleanerRun? && !s.core.nilLookup {
      assert NewTimes(s, a) == [];
      InTimeSweep(s, a.i, times);
    }
  }

  lemma {:induction false} InTimeHolds(d: int, clock: int, acts: seq<Action>)
    requires d >= 0 && Sorted(StoredTimes(d, clock, acts))
    ensures InTime(Run(d, clock, acts), StoredTimes(d, clock, acts))
  {
    hide Step, Stored;
    if acts == [] {
    } else {
      var before, a := acts[..|acts| - 1], acts[|acts| - 1];
      var s := Run(d, clock, before);
      var times := StoredTimes(d, clock, before);
      assert StoredTimes(d, clock, acts) == times + NewTimes(s, a);
      assert forall i :: 0 <= i < |times| ==> (times + NewTimes(s, a))[i] == times[i];
      InTimeHolds(d, clock, before);
      OneCleaner(d, clock, before);
      DurationFixed(d, clock, before);
      InTimeStep(s, a, times);
    }
  }

  /** If timestamps enter the log in order, a sleeping cleaner wakes no later than any record expires. */
  lemma {:induction false} CleanerIsNeverLate(d: int, clock: int, acts: seq<Action>, i: nat)
    requires d >= 0 && Sorted(StoredTimes(d, clock, acts))
    requires i < |Run(d, clock, acts).log|
    ensures var s := Run(d, clock, acts);
            |s.cleaners| == 1 && (s.cleaners[0].Sleeping? ==> s.cleaners[0].next <= s.log[i].ts + d)
  {
    OneCleaner(d, clock, acts);
    InTimeHolds(d, clock, acts);
    DurationFixed(d, clock, acts);
  }

  /** While the cache is open the cleaner has a record to wait for, and does not sleep past the first. */
  ghost predicate HeadInTime(s: State) {
    && (s.core.open && s.cleaning ==> s.log != [])
    && (s.log != [] ==>
          forall i :: 0 <= i < |s.cleaners| && s.cleaners[i].Sleeping? ==> s.cleaners[i].next <= s.log[0].ts + s.core.d)
  }

  lemma HeadStore(s: State, a: Action)
    requires Alive(s) && HeadInTime(s) && s.core.d >= 0 && Stored(s.core, a).Some? && !s.core.nilLookup
    ensures HeadInTime(StoreStep(s, a))
  {
    CoreFrame(s.core, a);
    hide CoreStep;
  }

  lemma HeadSweep(s: State, i: nat)
    requires Alive(s) && HeadInTime(s)
    ensures HeadInTime(CleanerRunStep(s, i))
  {
    hide Kept, Dropped, Residents;
  }

  lemma HeadStep(s: State, a: Action)
    requires Alive(s) && HeadInTime(s) && s.core.d >= 0 && !a.Evict?
    ensures HeadInTime(Step(s, a))
  {
    CoreFrame(s.core, a);
    OpenFrame(s.core, a);
    hide CoreStep, StoreStep, CleanerRunStep, Stored;
    if s.core.nilLookup {
    } else if a.CleanerRun? {
      HeadSweep(s, a.i);
    } else if Stored(s.core, a).Some? {
      HeadStore(s, a);
    }
  }

  lemma {:induction false} HeadHolds(d: int, clock: int, acts: seq<Action>)
    requires d >= 0 && Evict !in acts
    ensures HeadInTime(Run(d, clock, acts))
  {
    hide Step;
    if acts == [] {
    } else {
      var before, a := acts[..|acts| - 1], acts[|acts| - 1];
      assert acts == before + [a];
      HeadHolds(d, clock, before);
      OneCleaner(d, clock, before);
      DurationFixed(d, clock, before);
      HeadStep(Run(d, clock, before), a);
    }
  }

  /** Whatever the order of the timestamps, without Evict a sleeping cleaner wakes no later than the first
      record expires. */
  lemma HeadIsNeverLate(d: int, clock: int, acts: seq<Action>)
    requires d >= 0 && Evict !in acts && Run(d, clock, acts).log != []
    ensures var s := Run(d, clock, acts);
            |s.cleaners| == 1 && (s.cleaners[0].Sleeping? ==> s.cleaners[0].next <= s.log[0].ts + d)
  {
    OneCleaner(d, clock, acts);
    HeadHolds(d, clock, acts);
    DurationFixed(d, clock, acts);
  }

  /** With Evict it may: the cleaner goes on waiting for an evicted entry, and then a Set comes that read
      the clock earlier. */
  lemma EvictMakesCleanerLate(k: Key, v: Value) returns (acts: seq<Action>)
    ensures var s := Run(0, 9, acts);
            s.log == [Record(3, k)] && s.cleaners == [Sleeping(9)] && s.cleaners[0].next > s.log[0].ts + s.core.d
  {
    var s := Init(0, 9);
    assert s == Run(0, 9, []) by { EmptyRun(0, 9); }
    var t := Step(s, Set(9, k, v));
    assert t == Run(0, 9, [] + [Set(9, k, v)]) by { Unroll(0, 9, [], Set(9, k, v)); }
    acts := [] + [Set(9, k, v)];
    LateStart(s, t, k, v);
    var u := Step(t, Evict);
    assert u == Run(0, 9, acts + [Evict]) by { Unroll(0, 9, acts, Evict); }
    acts := acts + [Evict];
    LateEvict(t, u);
    assert Step(u, Set(3, k, v)) == Run(0, 9, acts + [Set(3, k, v)]) by { Unroll(0, 9, acts, Set(3, k, v)); }
    acts := acts + [Set(3, k, v)];
    hide Run;
    LateSet(u, k, v);
  }

  lemma LateStart(s: State, t: State, k: Key, v: Value)
    requires s == Init(0, 9) && t == Step(s, Set(9, k, v))
    ensures t.core.open && CanWrite(t.core) && !t.core.nilLookup && t.core.d == 0 && t.core.clock == 9
    ensures t.cleaning && t.cleaners == [Sleeping(9)]
  {
  }

  lemma LateEvict(s: State, t: State)
    requires s.core.open && CanWrite(s.core) && !s.core.nilLookup && t == Step(s, Evict)
    ensures t == s.(core := s.core.(data := map[]), log := [], released := t.released)
  {
    hide Residents;
  }

  lemma LateSet(s: State, k: Key, v: Value)
    requires s.core.open && CanWrite(s.core) && !s.core.nilLookup && s.core.d == 0 && s.core.clock == 9
    requires s.log == [] && s.cleaning && s.cleaners == [Sleeping(9)]
    ensures var t := Step(s, Set(3, k, v)); t.core.d == 0 && t.log == [Record(3, k)] && t.cleaners == s.cleaners
  {
  }

  // ---------------------------------------------------------------- what one pass does

  /** A record of `k` is among the first records of the log that have all expired at `now`. */
  ghost predicate Reached(log: seq<Record>, d: int, now: int, k: Key) {
    exists j :: 0 <= j < |log| && log[j].key == k && forall m :: 0 <= m <= j ==> log[m].ts + d <= now
  }

  lemma ReachedIsPopped(log: seq<Record>, d: int, now: int, k: Key)
    ensures Reached(log, d, now, k) <==> Names(log[..Popped(log, d, now)], k)
  {
    var n := Popped(log, d, now);
    hide Popped;
    if Reached(log, d, now, k) {
      var j :| 0 <= j < |log| && log[j].key == k && forall m :: 0 <= m <= j ==> log[m].ts + d <= now;
      assert n < |log| ==> log[n].ts + d > now;
      assert log[..n][j] == log[j];
    }
    if Names(log[..n], k) {
      var j :| 0 <= j < |log[..n]| && log[..n][j].key == k;
      assert log[j].key == k;
    }
  }

  lemma SweepDeletes(s: State, i: nat, k: Key)
    requires CanWrite(s.core) && i < |s.cleaners| && s.cleaners[i].Due?
    ensures var t, now := CleanerRunStep(s, i), s.cleaners[i].now;
            && (k in t.core.data <==>
                  k in s.core.data && !(s.core.data[k].ts + s.core.d < now && Reached(s.log, s.core.d, now, k)))
            && (k in t.core.data ==> t.core.data[k] == s.core.data[k])
  {
    ReachedIsPopped(s.log, s.core.d, s.cleaners[i].now, k);
    hide Reached, Popped, Names, Residents;
  }

  lemma SweepReschedules(s: State, i: nat)
    requires CanWrite(s.core) && i < |s.cleaners| && s.cleaners[i].Due? && |s.cleaners| == 1
    ensures var t := CleanerRunStep(s, i);
            && t.cleaners == (if t.log == [] then [] else [Sleeping(t.log[0].ts + s.core.d)])
            && (t.log != [] ==> t.log[0].ts + s.core.d > s.cleaners[i].now)
            && t.log <= s.log[|s.log| - |t.log|..]
            && forall j :: 0 <= j < |s.log| - |t.log| ==> s.log[j].ts + s.core.d <= s.cleaners[i].now
  {
    hide Residents, Kept, Dropped;
    var n := Popped(s.log, s.core.d, s.cleaners[i].now);
    if n < |s.log| {
      assert s.log[n..][0] == s.log[n];
    }
  }

  lemma PassIs(d: int, clock: int, acts: seq<Action>, i: nat)
    requires CanWrite(Run(d, clock, acts).core) && !Run(d, clock, acts).core.nilLookup
    requires i < |Run(d, clock, acts).cleaners| && Run(d, clock, acts).cleaners[i].Due?
    ensures Run(d, clock, acts + [CleanerRun(i)]) == CleanerRunStep(Run(d, clock, acts), i)
    ensures Run(d, clock, acts).core.d == d && |Run(d, clock, acts).cleaners| == 1
  {
    Unroll(d, clock, acts, CleanerRun(i));
    OneCleaner(d, clock, acts);
    DurationFixed(d, clock, acts);
    hide Run, CleanerRunStep;
  }

  /** Over any run, a pass with the time `now` deletes exactly the entries that have expired before `now` and
      that a record names before the first one that has not expired.  It takes the records up to that one
      off the log, and then sleeps until exactly that one's expiration, or ends if there is none. */
  lemma PassExactly(d: int, clock: int, acts: seq<Action>, i: nat, k: Key)
    requires CanWrite(Run(d, clock, acts).core) && !Run(d, clock, acts).core.nilLookup
    requires i < |Run(d, clock, acts).cleaners| && Run(d, clock, acts).cleaners[i].Due?
    ensures var s, t := Run(d, clock, acts), Run(d, clock, acts + [CleanerRun(i)]);
            var now := s.cleaners[i].now;
            && (k in t.core.data <==>
                  k in s.core.data && !(s.core.data[k].ts + d < now && Reached(s.log, d, now, k)))
            && (k in t.core.data ==> t.core.data[k] == s.core.data[k])
            && t.log <= s.log[|s.log| - |t.log|..]
            && (forall j :: 0 <= j < |s.log| - |t.log| ==> s.log[j].ts + d <= now)
            && (t.log != [] ==> t.log[0].ts + d > now)
            && t.cleaners == if t.log == [] then [] else [Sleeping(t.log[0].ts + d)]
  {
    hide *;
    PassIs(d, clock, acts, i);
    SweepDeletes(Run(d, clock, acts), i, k);
    SweepReschedules(Run(d, clock, acts), i);
  }

  /** If timestamps enter the log in order, every pass deletes all logged entries that have expired before it. */
  lemma OrderedPassExactly(d: int, clock: int, acts: seq<Action>, i: nat, k: Key)
    requires CanWrite(Run(d, clock, acts).core) && !Run(d, clock, acts).core.nilLookup
    requires i < |Run(d, clock, acts).cleaners| && Run(d, clock, acts).cleaners[i].Due?
    requires d >= 0 && Sorted(StoredTimes(d, clock, acts))
    requires k in Run(d, clock, acts).core.data && Logged(Run(d, clock, acts), k)
    ensures var s, t := Run(d, clock, acts), Run(d, clock, acts + [CleanerRun(i)]);
            k in t.core.data <==> s.core.data[k].ts + d >= s.cleaners[i].now
  {
    PassExactly(d, clock, acts, i, k);
    InTimeHolds(d, clock, acts);
    hide Run, InTime, Reached, Sorted, StoredTimes, Logged;
    var s := Run(d, clock, acts);
    DurationFixed(d, clock, acts);
    if s.core.data[k].ts + d < s.cleaners[i].now {
      LoggedIsReached(s, StoredTimes(d, clock, acts), s.cleaners[i].now, k);
    }
  }

  lemma LoggedIsReached(s: State, times: seq<int>, now: int, k: Key)
    requires InTime(s, times) && Sorted(times) && k in s.core.data && Logged(s, k)
    requires s.core.data[k].ts + s.core.d < now
    ensures Reached(s.log, s.core.d, now, k)
  {
    var j :| 0 <= j < |s.log| && s.log[j] == Record(s.core.data[k].ts, k);
    var first := |times| - |s.log|;
    forall m | 0 <= m <= j ensures s.log[m].ts + s.core.d <= now {
      assert s.log[m].ts == times[first + m] && s.log[j].ts == times[first + j];
    }
  }

  // ---------------------------------------------------------------- every value is resident or released

  lemma ResidentsUnfold(m: map<Key, Entry>)
    ensures m == map[] ==> Residents(m) == multiset{}
    ensures m != map[] ==> Residents(m) == multiset{m[Pick(m)].value} + Residents(m - {Pick(m)})
  {
  }

  lemma {:induction false} ResidentsWithout(m: map<Key, Entry>, k: Key)
    requires k in m
    ensures Residents(m) == multiset{m[k].value} + Residents(m - {k})
    decreases |m|
  {
    hide Residents;
    ResidentsUnfold(m);
    var p := Pick(m);
    if p == k {
    } else {
      var without := m - {p} - {k};
      assert without == m - {k} - {p};
      ResidentsWithout(m - {p}, k);
      ResidentsWithout(m - {k}, p);
    }
  }

  lemma ResidentsPut(m: map<Key, Entry>, k: Key, e: Entry)
    ensures Residents(m[k := e]) + (if k in m then multiset{m[k].value} else multiset{})
            == Residents(m) + multiset{e.value}
  {
    hide Residents;
    ResidentsWithout(m[k := e], k);
    assert m[k := e] - {k} == m - {k};
    if k in m {
      ResidentsWithout(m, k);
    } else {
      assert m - {k} == m;
    }
  }

  lemma UnionWithout(a: map<Key, Entry>, b: map<Key, Entry>, k: Key)
    requires a.Keys !! b.Keys && k in a
    ensures k in a + b && (a + b)[k] == a[k]
    ensures (a + b) - {k} == (a - {k}) + b
    ensures (a - {k}).Keys !! b.Keys
    ensures |a - {k}| < |a|
  {
    assert (a - {k}).Keys == a.Keys - {k};
    assert forall x :: x in b ==> x !in a.Keys;
  }

  lemma {:induction false} ResidentsUnion(a: map<Key, Entry>, b: map<Key, Entry>)
    requires a.Keys !! b.Keys
    ensures Residents(a + b) == Residents(a) + Residents(b)
    decreases |a|
  {
    hide Residents;
    if a == map[] {
      assert a + b == b;
      ResidentsUnfold(a);
    } else {
      var k := Pick(a);
      ResidentsWithout(a, k);
      UnionWithout(a, b, k);
      ResidentsWithout(a + b, k);
      ResidentsUnion(a - {k}, b);
    }
  }

  lemma LookupFrame(c: Core, k: Key)
    ensures LookupReadStep(c, k).data == LookupWriteStep(c, k).data == c.data
  {
  }

  lemma StartFrame(c: Core, p: nat, canceled: bool)
    ensures RetrieveStartStep(c, p, canceled).data == c.data
  {
  }

  lemma FinishFrame(c: Core, p: nat)
    ensures RetrieveStoreStep(c, p).data == Put(c.data, Stored(c, RetrieveStore(p)))
  {
  }

  lemma DataFrame(c: Core, a: Action)
    requires !c.nilLookup
    ensures CoreStep(c, a).data
            == if Stored(c, a).Some? then Put(c.data, Stored(c, a))
               else if (a.Evict? || a.Close?) && CanWrite(c) && c.open then map[]
               else c.data
  {
    hide LookupReadStep, LookupWriteStep, RetrieveStartStep, RetrieveStoreStep;
    match a
    case LookupRead(k) => LookupFrame(c, k);
    case LookupWrite(k) => LookupFrame(c, k);
    case RetrieveStart(p, canceled) => StartFrame(c, p, canceled);
    case RetrieveStore(p) => FinishFrame(c, p);
    case _ =>
  }

  ghost predicate Conserved(s: State) {
    s.inserted == Residents(s.core.data) + s.released
  }

  lemma ConservedSweep(s: State, i: nat)
    requires Conserved(s)
    ensures Conserved(CleanerRunStep(s, i))
  {
    hide Residents;
    if CanWrite(s.core) && i < |s.cleaners| && s.cleaners[i].Due? {
      var n := Popped(s.log, s.core.d, s.cleaners[i].now);
      var kept := Kept(s.core.data, s.log[..n], s.core.d, s.cleaners[i].now);
      var dropped := Dropped(s.core.data, s.log[..n], s.core.d, s.cleaners[i].now);
      assert s.core.data == kept + dropped;
      ResidentsUnion(kept, dropped);
    }
  }

  lemma StoreSums(s: State, a: Action)
    requires !s.core.nilLookup && Stored(s.core, a).Some?
    ensures var (k, e) := Stored(s.core, a).value;
            var t := StoreStep(s, a);
            && t.core.data == s.core.data[k := e]
            && t.released == s.released + (if k in s.core.data then multiset{s.core.data[k].value} else multiset{})
            && t.inserted == s.inserted + multiset{e.value}
  {
    DataFrame(s.core, a);
    hide CoreStep, Stored;
  }

  lemma ConservedStore(s: State, a: Action)
    requires Conserved(s) && !s.core.nilLookup && Stored(s.core, a).Some?
    ensures Conserved(StoreStep(s, a))
  {
    StoreSums(s, a);
    hide CoreStep, Residents, Stored, StoreStep;
    var (k, e) := Stored(s.core, a).value;
    var t := StoreStep(s, a);
    ResidentsPut(s.core.data, k, e);
    var gone := if k in s.core.data then multiset{s.core.data[k].value} else multiset{};
    assert t.released == s.released + gone;
    assert Residents(t.core.data) + gone == Residents(s.core.data) + multiset{e.value};
    Balance(Residents(s.core.data), Residents(t.core.data), gone, multiset{e.value}, s.released);
  }

  lemma Balance(was: multiset<Value>, now: multiset<Value>, gone: multiset<Value>, new': multiset<Value>,
                released: multiset<Value>)
    requires now + gone == was + new'
    ensures was + released + new' == now + (released + gone)
  {
    calc {
      was + released + new';
      (was + new') + released;
      (now + gone) + released;
      now + (released + gone);
    }
  }

  lemma ConservedStep(s: State, a: Action)
    requires Conserved(s)
    ensures Conserved(Step(s, a))
  {
    if !s.core.nilLookup {
      DataFrame(s.core, a);
    }
    ResidentsUnfold(map[]);
    hide CoreStep, CleanerRunStep, StoreStep, Residents, Stored;
    if !s.core.nilLookup {
      if a.CleanerRun? {
        ConservedSweep(s, a.i);
      } else if Stored(s.core, a).Some? {
        ConservedStore(s, a);
      } else if (a.Evict? || a.Close?) && CanWrite(s.core) && s.core.open {
        assert Step(s, a).core.data == map[];
      } else {
        assert Step(s, a).core.data == s.core.data;
      }
    }
  }

  /** Through overwrites, sweeps, Evict and Close: what was stored is resident or has been released. */
  lemma {:induction false} NothingIsLost(d: int, clock: int, acts: seq<Action>)
    ensures var s := Run(d, clock, acts); s.inserted == Residents(s.core.data) + s.released
  {
    hide Step;
    if acts == [] {
    } else {
      NothingIsLost(d, clock, acts[..|acts| - 1]);
      ConservedStep(Run(d, clock, acts[..|acts| - 1]), acts[|acts| - 1]);
    }
  }

  /** A value stored once is released at most once, and not while it is resident. */
  lemma ReleasedOnce(d: int, clock: int, acts: seq<Action>, v: Value)
    requires Run(d, clock, acts).inserted[v] <= 1
    ensures var s := Run(d, clock, acts);
            && s.released[v] <= 1
            && forall k :: k in s.core.data && s.core.data[k].value == v ==> s.released[v] == 0
  {
    hide Residents;
    NothingIsLost(d, clock, acts);
    var s := Run(d, clock, acts);
    forall k | k in s.core.data && s.core.data[k].value == v ensures s.released[v] == 0 {
      ResidentsWithout(s.core.data, k);
    }
  }
}
