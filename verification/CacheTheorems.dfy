/** What cache/cache.go promises, over every interleaving of its callers, lookups and cleaner. */
module CacheTheorems {
  import opened Base
  import opened CacheProtocol

  lemma EmptyRun(d: int, clock: int)
    ensures Run(d, clock, []) == Init(d, clock) && Run(d, clock, []).core.data == map[]
    ensures Reference(d, clock, []) == Init(d, clock).core
  {
  }

  lemma Unroll(d: int, clock: int, acts: seq<Action>, a: Action)
    ensures Run(d, clock, acts + [a]) == Step(Run(d, clock, acts), a)
    ensures Reference(d, clock, acts + [a]) == CoreStep(Reference(d, clock, acts), a)
  {
    assert (acts + [a])[..|acts|] == acts;
  }

  // ---------------------------------------------------------------- the log and the cleaner are invisible

  ghost predicate CleanersPast(s: State) {
    forall i :: 0 <= i < |s.cleaners| && s.cleaners[i].Due? ==> s.cleaners[i].now <= s.core.clock
  }

  /** The cache holds the last write of a key, or has dropped it after it expired. */
  ghost predicate Agree(c: Core, r: Core) {
    && c.(data := r.data) == r
    && (forall k :: k in c.data ==> k in r.data && c.data[k] == r.data[k])
    && (forall k :: k in r.data && k !in c.data ==> r.data[k].ts + r.d < r.clock)
  }

  lemma SameHits(c: Core, r: Core, k: Key)
    requires Agree(c, r)
    ensures Hit(c, k) <==> Hit(r, k)
    ensures ValueOf(c, k) == ValueOf(r, k)
  {
  }

  lemma AgreeLookup(c: Core, r: Core, k: Key)
    requires Agree(c, r)
    ensures Agree(LookupReadStep(c, k), LookupReadStep(r, k))
    ensures Agree(LookupWriteStep(c, k), LookupWriteStep(r, k))
  {
    SameHits(c, r, k);
  }

  lemma AgreeStore(c: Core, r: Core, p: nat)
    requires Agree(c, r)
    ensures Agree(RetrieveStoreStep(c, p), RetrieveStoreStep(r, p))
  {
    assert Stored(c, RetrieveStore(p)) == Stored(r, RetrieveStore(p));
  }

  lemma AgreeStart(c: Core, r: Core, p: nat, canceled: bool)
    requires Agree(c, r)
    ensures Agree(RetrieveStartStep(c, p, canceled), RetrieveStartStep(r, p, canceled))
  {
  }

  lemma AgreeStep(c: Core, r: Core, a: Action)
    requires Agree(c, r)
    ensures Agree(CoreStep(c, a), CoreStep(r, a))
  {
    hide LookupReadStep, LookupWriteStep, RetrieveStoreStep, RetrieveStartStep;
    match a
    case LookupRead(k) => AgreeLookup(c, r, k);
    case LookupWrite(k) => AgreeLookup(c, r, k);
    case RetrieveStart(p, canceled) => AgreeStart(c, r, p, canceled);
    case RetrieveStore(p) => AgreeStore(c, r, p);
    case _ =>
  }

  lemma SweepAgrees(s: State, r: Core, i: nat)
    requires Agree(s.core, r) && CleanersPast(s)
    ensures Agree(CleanerRunStep(s, i).core, r)
  {
  }

  lemma CoreFrame(c: Core, a: Action)
    ensures CoreStep(c, a).clock >= c.clock && CoreStep(c, a).d == c.d
    ensures a.CleanerWake? || a.CleanerRun? ==> CoreStep(c, a) == c
  {
  }

  /** Outside the cleaner's own section a step moves the core as the reference does. */
  lemma CoreOf(s: State, a: Action)
    ensures Step(s, a).core
            == if a.CleanerRun? && !s.core.nilLookup then CleanerRunStep(s, a.i).core else CoreStep(s.core, a)
    ensures Step(s, a).core.clock >= s.core.clock && Step(s, a).core.d == s.core.d
  {
    CoreFrame(s.core, a);
  }

  lemma CleanersOf(s: State, a: Action)
    requires !a.CleanerWake? && !a.CleanerRun?
    ensures || Step(s, a).cleaners == s.cleaners
            || exists t :: Step(s, a).cleaners == s.cleaners + [Sleeping(t)]
  {
  }

  lemma CleanersPastStep(s: State, a: Action)
    requires CleanersPast(s)
    ensures CleanersPast(Step(s, a))
  {
    CoreOf(s, a);
    if !a.CleanerWake? && !a.CleanerRun? {
      CleanersOf(s, a);
    }
  }

  lemma RefineStep(s: State, r: Core, a: Action)
    requires Agree(s.core, r) && CleanersPast(s)
    ensures Agree(Step(s, a).core, CoreStep(r, a)) && CleanersPast(Step(s, a))
  {
    CleanersPastStep(s, a);
    CoreOf(s, a);
    if a.CleanerRun? && !s.core.nilLookup {
      SweepAgrees(s, r, a.i);
      CoreFrame(r, a);
    } else {
      AgreeStep(s.core, r, a);
    }
  }

  lemma {:induction false} Refines(d: int, clock: int, acts: seq<Action>)
    ensures Agree(Run(d, clock, acts).core, Reference(d, clock, acts))
    ensures CleanersPast(Run(d, clock, acts))
  {
    if acts == [] {
    } else {
      var before, a := acts[..|acts| - 1], acts[|acts| - 1];
      Refines(d, clock, before);
      RefineStep(Run(d, clock, before), Reference(d, clock, before), a);
    }
  }

  /** No caller can tell the cache from a map of last writes that is never cleaned: every key reads the
      same, and the pending table, the lookups and the lock are the same. */
  lemma {:induction false} CleaningIsInvisible(d: int, clock: int, acts: seq<Action>)
    ensures var c, r := Run(d, clock, acts).core, Reference(d, clock, acts);
            && (forall k :: ValueOf(c, k) == ValueOf(r, k))
            && c.(data := map[]) == r.(data := map[])
  {
    Refines(d, clock, acts);
    var c, r := Run(d, clock, acts).core, Reference(d, clock, acts);
    assert c.(data := map[]) == r.(data := map[]);
    forall k ensures ValueOf(c, k) == ValueOf(r, k) {
      SameHits(c, r, k);
    }
  }

  // ---------------------------------------------------------------- every entry is logged, or was swept

  ghost predicate Logged(s: State, k: Key)
    requires k in s.core.data
  {
    Record(s.core.data[k].ts, k) in s.log
  }

  /** A sweep keeps an entry with its record, or has popped the record at the very time of its expiration. */
  lemma SweepCovers(s: State, i: nat, k: Key)
    requires CanWrite(s.core) && i < |s.cleaners| && s.cleaners[i].Due?
    requires k in CleanerRunStep(s, i).core.data && Logged(s, k)
    ensures k in s.core.data && s.core.data[k] == CleanerRunStep(s, i).core.data[k]
    ensures Logged(CleanerRunStep(s, i), k) || s.core.data[k].ts + s.core.d == s.cleaners[i].now
  {
    var n := Popped(s.log, s.core.d, s.cleaners[i].now);
    var j :| 0 <= j < |s.log| && s.log[j] == Record(s.core.data[k].ts, k);
    if j >= n {
      assert s.log[n..][j - n] == s.log[j];
    }
  }

  lemma {:induction false} DurationFixed(d: int, clock: int, acts: seq<Action>)
    ensures Run(d, clock, acts).core.d == d
  {
    if acts == [] {
    } else {
      DurationFixed(d, clock, acts[..|acts| - 1]);
      CoreOf(Run(d, clock, acts[..|acts| - 1]), acts[|acts| - 1]);
    }
  }

  /** Where an entry comes from: it was there before, or this action stored it. */
  lemma DataOf(c: Core, a: Action, k: Key)
    requires k in CoreStep(c, a).data
    ensures if Stored(c, a).Some? && Stored(c, a).value.0 == k && !c.nilLookup
            then CoreStep(c, a).data[k] == Stored(c, a).value.1
            else k in c.data && CoreStep(c, a).data[k] == c.data[k]
    ensures !Stored(c, a).Some? && (a.Evict? || a.Close?) && CanWrite(c) && c.open ==> c.nilLookup
  {
  }

  lemma LogOf(s: State, a: Action)
    requires !s.core.nilLookup && !a.CleanerRun?
    ensures Step(s, a).log
            == if Stored(s.core, a).Some? then
                 s.log + [Record(Stored(s.core, a).value.1.ts, Stored(s.core, a).value.0)]
               else if (a.Evict? || a.Close?) && CanWrite(s.core) && s.core.open then []
               else s.log
  {
  }

  /** How an entry comes to be resident after a step without its record in the log. */
  lemma EntryStep(s: State, a: Action, k: Key)
    requires k in Step(s, a).core.data
    ensures || Logged(Step(s, a), k)
            || (&& k in s.core.data && s.core.data[k] == Step(s, a).core.data[k]
                && (Logged(s, k) ==> SweepsAt(s, a, s.core.data[k].ts + s.core.d)))
  {
    CoreOf(s, a);
    if s.core.nilLookup {
    } else if a.CleanerRun? {
      if CanWrite(s.core) && a.i < |s.cleaners| && s.cleaners[a.i].Due? && Logged(s, k) {
        SweepCovers(s, a.i, k);
      }
    } else {
      DataOf(s.core, a, k);
      LogOf(s, a);
    }
  }

  lemma SweptUnroll(d: int, clock: int, acts: seq<Action>, a: Action, t: int)
    ensures Swept(d, clock, acts + [a], t) == (Swept(d, clock, acts, t) || SweepsAt(Run(d, clock, acts), a, t))
  {
    assert (acts + [a])[..|acts|] == acts;
  }

  ghost predicate Covered(d: int, clock: int, acts: seq<Action>, k: Key) {
    var s := Run(d, clock, acts);
    k in s.core.data ==> Logged(s, k) || Swept(d, clock, acts, s.core.data[k].ts + d)
  }

  lemma CoverStep(d: int, clock: int, acts: seq<Action>, a: Action, k: Key)
    requires Covered(d, clock, acts, k)
    ensures Covered(d, clock, acts + [a], k)
  {
    hide Step, Swept, Run, Logged, SweepsAt, Reference, CoreStep;
    var s, t := Run(d, clock, acts), Run(d, clock, acts + [a]);
    assert t == Step(s, a) by { Unroll(d, clock, acts, a); }
    if k in t.core.data && !Logged(t, k) {
      EntryStep(s, a, k);
      var expiration := s.core.data[k].ts + d;
      assert s.core.d == d by { DurationFixed(d, clock, acts); }
      assert Swept(d, clock, acts, expiration) || SweepsAt(s, a, expiration);
      SweptUnroll(d, clock, acts, a, expiration);
    }
  }

  lemma {:induction false} Covers(d: int, clock: int, acts: seq<Action>, k: Key)
    ensures Covered(d, clock, acts, k)
  {
    if acts == [] {
      EmptyRun(d, clock);
    } else {
      hide Covered;
      var before := acts[..|acts| - 1];
      Covers(d, clock, before, k);
      assert acts == before + [acts[|acts| - 1]];
      CoverStep(d, clock, before, acts[|acts| - 1], k);
    }
  }

  /** Every resident entry has its own record in the log, or was passed over by a sweep whose time was
      exactly its expiration. */
  lemma EntryIsCovered(d: int, clock: int, acts: seq<Action>, k: Key)
    requires k in Run(d, clock, acts).core.data
    ensures Logged(Run(d, clock, acts), k) || Swept(d, clock, acts, Run(d, clock, acts).core.data[k].ts + d)
  {
    hide Run, Swept;
    Covers(d, clock, acts, k);
  }

  lemma {:induction false} SweptIsPast(d: int, clock: int, acts: seq<Action>, t: int)
    requires Swept(d, clock, acts, t)
    ensures t <= Run(d, clock, acts).core.clock
  {
    var before, a := acts[..|acts| - 1], acts[|acts| - 1];
    var s := Run(d, clock, before);
    CoreOf(s, a);
    if Swept(d, clock, before, t) {
      SweptIsPast(d, clock, before, t);
    } else {
      Refines(d, clock, before);
    }
  }

  /** With an empty log, as when the cleaner stops, nothing that is still resident can be read. */
  lemma NothingFreshWhenLogEmpty(d: int, clock: int, acts: seq<Action>, k: Key)
    requires Run(d, clock, acts).log == []
    ensures !Hit(Run(d, clock, acts).core, k)
    ensures k in Run(d, clock, acts).core.data ==>
              Run(d, clock, acts).core.data[k].ts + d <= Run(d, clock, acts).core.clock
  {
    hide Run, Swept;
    DurationFixed(d, clock, acts);
    if k in Run(d, clock, acts).core.data {
      EntryIsCovered(d, clock, acts, k);
      SweptIsPast(d, clock, acts, Run(d, clock, acts).core.data[k].ts + d);
    }
  }

  /** The timestamp of the last record that names `k`. */
  function LastRecord(log: seq<Record>, k: Key): Option<int> {
    if log == [] then None
    else if log[|log| - 1].key == k then Some(log[|log| - 1].ts)
    else LastRecord(log[..|log| - 1], k)
  }

  lemma {:induction false} LastRecordIs(log: seq<Record>, k: Key)
    ensures LastRecord(log, k).Some? <==> Names(log, k)
    ensures LastRecord(log, k).Some? ==> Record(LastRecord(log, k).value, k) in log
  {
    if log == [] {
    } else {
      var last := |log| - 1;
      LastRecordIs(log[..last], k);
      assert log[last] == Record(log[last].ts, log[last].key);
      assert forall i :: 0 <= i < last ==> log[..last][i] == log[i];
    }
  }

  lemma {:induction false} LastRecordAfter(log: seq<Record>, n: nat, k: Key)
    requires n <= |log| && LastRecord(log[n..], k).Some?
    ensures LastRecord(log, k) == LastRecord(log[n..], k)
  {
    var last := |log| - 1;
    assert log[n..][|log[n..]| - 1] == log[last];
    if log[last].key == k {
    } else {
      assert log[n..][..|log[n..]| - 1] == log[..last][n..];
      LastRecordAfter(log[..last], n, k);
    }
  }

  lemma LastRecordAppend(log: seq<Record>, r: Record, k: Key)
    ensures LastRecord(log + [r], k) == if r.key == k then Some(r.ts) else LastRecord(log, k)
  {
    assert (log + [r])[..|log|] == log;
  }

  /** The last record that names a resident entry is its own. */
  ghost predicate LastIsOwn(s: State, k: Key) {
    k in s.core.data && LastRecord(s.log, k).Some? ==> LastRecord(s.log, k).value == s.core.data[k].ts
  }

  lemma LastIsOwnSweep(s: State, i: nat, k: Key)
    requires LastIsOwn(s, k)
    ensures LastIsOwn(CleanerRunStep(s, i), k)
  {
    hide LastRecord, Residents;
    if CanWrite(s.core) && i < |s.cleaners| && s.cleaners[i].Due? {
      var n := Popped(s.log, s.core.d, s.cleaners[i].now);
      if LastRecord(s.log[n..], k).Some? {
        LastRecordAfter(s.log, n, k);
      }
    }
  }

  lemma LastIsOwnStep(s: State, a: Action, k: Key)
    requires LastIsOwn(s, k)
    ensures LastIsOwn(Step(s, a), k)
  {
    CoreOf(s, a);
    if s.core.nilLookup {
    } else if a.CleanerRun? {
      LastIsOwnSweep(s, a.i, k);
    } else {
      LogOf(s, a);
      var stored := Stored(s.core, a);
      if stored.Some? {
        LastRecordAppend(s.log, Record(stored.value.1.ts, stored.value.0), k);
      }
      if k in CoreStep(s.core, a).data {
        DataOf(s.core, a, k);
      }
      hide CoreStep, Step, LastRecord, Stored;
    }
  }

  lemma {:induction false} LastIsOwnHolds(d: int, clock: int, acts: seq<Action>, k: Key)
    ensures LastIsOwn(Run(d, clock, acts), k)
  {
    if acts == [] {
      EmptyRun(d, clock);
    } else {
      hide Step, LastIsOwn;
      var before := acts[..|acts| - 1];
      LastIsOwnHolds(d, clock, before, k);
      LastIsOwnStep(Run(d, clock, before), acts[|acts| - 1], k);
    }
  }

  /** cleanup is said to run until the cache is empty.  Over any run, the pass that empties the log leaves an
      entry behind exactly if the entry expires at the very time of the pass, or has no record of its own
      any more, which is to say that an earlier pass left it behind (EntryIsCovered). */
  lemma LeftBehindExactlyAtTie(d: int, clock: int, acts: seq<Action>, i: nat, k: Key)
    requires var s := Run(d, clock, acts);
             && CanWrite(s.core) && i < |s.cleaners| && s.cleaners[i].Due? && k in s.core.data
             && CleanerRunStep(s, i).log == []
    ensures var s := Run(d, clock, acts);
            k in CleanerRunStep(s, i).core.data <==> (Logged(s, k) ==> s.core.data[k].ts + d == s.cleaners[i].now)
  {
    LastIsOwnHolds(d, clock, acts, k);
    DurationFixed(d, clock, acts);
    hide Run, Residents;
    var s := Run(d, clock, acts);
    LastRecordIs(s.log, k);
    hide LastRecord;
    var n := Popped(s.log, s.core.d, s.cleaners[i].now);
    assert n == |s.log| && s.log[..n] == s.log;
    if Logged(s, k) {
      var j :| 0 <= j < |s.log| && s.log[j] == Record(s.core.data[k].ts, k);
      assert s.log[j].key == k;
    }
  }

  /** Nothing in `more` overwrites the entry of `k`, and the cache is neither evicted nor closed. */
  ghost predicate Untouched(d: int, clock: int, acts: seq<Action>, more: seq<Action>, k: Key) {
    more != [] ==>
      var rest, a := more[..|more| - 1], more[|more| - 1];
      var stored := Stored(Run(d, clock, acts + rest).core, a);
      && Untouched(d, clock, acts, rest, k)
      && !a.Evict? && !a.Close? && (stored.Some? ==> stored.value.0 != k)
  }

  lemma EntryKept(s: State, a: Action, k: Key)
    requires CleanersPast(s) && k in s.core.data && s.core.clock <= s.core.data[k].ts + s.core.d
    requires !a.Evict? && !a.Close? && (Stored(s.core, a).Some? ==> Stored(s.core, a).value.0 != k)
    ensures k in Step(s, a).core.data && Step(s, a).core.data[k] == s.core.data[k]
  {
    CoreOf(s, a);
  }

  /** An entry that is not overwritten stays through every sweep until it has expired, whatever older
      records of its key those sweeps pop. */
  lemma {:induction false} RefreshedSurvives(d: int, clock: int, acts: seq<Action>, more: seq<Action>, k: Key)
    requires k in Run(d, clock, acts).core.data && Untouched(d, clock, acts, more, k)
    requires Run(d, clock, acts + more).core.clock <= Run(d, clock, acts).core.data[k].ts + d
    ensures var c, c' := Run(d, clock, acts).core, Run(d, clock, acts + more).core;
            k in c'.data && c'.data[k] == c.data[k]
  {
    hide Run, Step, Stored;
    if more == [] {
      assert acts + more == acts;
    } else {
      var rest, a := more[..|more| - 1], more[|more| - 1];
      var s := Run(d, clock, acts + rest);
      assert acts + more == (acts + rest) + [a];
      Unroll(d, clock, acts + rest, a);
      CoreOf(s, a);
      DurationFixed(d, clock, acts + rest);
      RefreshedSurvives(d, clock, acts, rest, k);
      Refines(d, clock, acts + rest);
      EntryKept(s, a, k);
    }
  }

  /** A run that leaves an entry behind: it was stored at time 0 and swept at its expiration. */
  lemma TieLeavesEntry(k: Key, v: Value) returns (acts: seq<Action>)
    ensures var s := Run(5, 0, acts);
            s.log == [] && s.cleaners == [] && k in s.core.data && !Hit(s.core, k)
  {
    var s := Init(5, 0);
    assert s == Run(5, 0, []) by { EmptyRun(5, 0); }
    var t := Step(s, Set(0, k, v));
    assert t == Run(5, 0, [] + [Set(0, k, v)]) by { Unroll(5, 0, [], Set(0, k, v)); }
    acts := [] + [Set(0, k, v)];
    TieStart(s, t, k, v);
    var u := Step(t, Tick(5));
    assert u == Run(5, 0, acts + [Tick(5)]) by { Unroll(5, 0, acts, Tick(5)); }
    acts := acts + [Tick(5)];
    var w := Step(u, CleanerWake(0));
    assert w == Run(5, 0, acts + [CleanerWake(0)]) by { Unroll(5, 0, acts, CleanerWake(0)); }
    acts := acts + [CleanerWake(0)];
    TieWake(t, u, w);
    assert Step(w, CleanerRun(0)) == Run(5, 0, acts + [CleanerRun(0)]) by { Unroll(5, 0, acts, CleanerRun(0)); }
    acts := acts + [CleanerRun(0)];
    hide Run;
    TieSweep(w, k);
  }

  lemma TieStart(s: State, t: State, k: Key, v: Value)
    requires s == Init(5, 0) && t == Step(s, Set(0, k, v))
    ensures CanWrite(t.core) && !t.core.nilLookup && t.core.d == 5 && t.core.clock == 0
    ensures k in t.core.data && t.core.data[k].ts == 0 && t.log == [Record(0, k)] && t.cleaners == [Sleeping(0)]
  {
  }

  lemma TieWake(s: State, t: State, u: State)
    requires !s.core.nilLookup && s.core.clock == 0 && s.cleaners == [Sleeping(0)]
    requires t == Step(s, Tick(5)) && u == Step(t, CleanerWake(0))
    ensures u == s.(core := s.core.(clock := 5), cleaners := [Due(5)])
  {
  }

  lemma TieSweep(s: State, k: Key)
    requires CanWrite(s.core) && !s.core.nilLookup && s.core.clock == s.core.d == 5
    requires k in s.core.data && s.core.data[k].ts == 0 && s.log == [Record(0, k)] && s.cleaners == [Due(5)]
    ensures var t := Step(s, CleanerRun(0));
            t.log == [] && t.cleaners == [] && k in t.core.data && !Hit(t.core, k)
  {
    assert Popped(s.log, 5, 5) == 1;
  }
}
