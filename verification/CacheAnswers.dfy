/** What the callers of cache/cache.go are told: the answer of the lookup function, and what was stored. */
module CacheAnswers {
  import opened Base
  import opened CacheProtocol
  import opened CacheTheorems
  import opened CacheCleaner
  import opened CacheFlights

  // ---------------------------------------------------------------- the answer of a lookup

  lemma ReturnIs(c: Core, p: nat, answer: Answer)
    requires !c.nilLookup && InPhase(c, p, Querying)
    ensures InPhase(CoreStep(c, RetrieveReturn(p, answer)), p, Returned(answer, c.clock))
  {
  }

  lemma Returns(d: int, clock: int, acts: seq<Action>, p: nat, answer: Answer)
    requires !Run(d, clock, acts).core.nilLookup && InPhase(Run(d, clock, acts).core, p, Querying)
    ensures InPhase(Run(d, clock, acts + [RetrieveReturn(p, answer)]).core, p,
                    Returned(answer, Run(d, clock, acts).core.clock))
  {
    hide Run, Step, CoreStep;
    var s, a := Run(d, clock, acts), RetrieveReturn(p, answer);
    Unroll(d, clock, acts, a);
    CoreCalls(s, a);
    ReturnIs(s.core, p, answer);
  }

  /** Everyone who has joined lookup p is told exactly what its call of the lookup function returned. */
  lemma AnswerIsWhatLookupReturned(d: int, clock: int, acts: seq<Action>, p: nat, answer: Answer, more: seq<Action>)
    requires !Run(d, clock, acts).core.nilLookup && InPhase(Run(d, clock, acts).core, p, Querying)
    ensures var c := Run(d, clock, acts + [RetrieveReturn(p, answer)] + more).core;
            p < |c.calls| &&
            c.calls[p].phase in {Returned(answer, Run(d, clock, acts).core.clock), Complete(answer)}
  {
    hide Run;
    Returns(d, clock, acts, p, answer);
    AnswerIsFinal(d, clock, acts + [RetrieveReturn(p, answer)], more, p);
  }

  // ---------------------------------------------------------------- what was stored is read

  lemma UntouchedStep(s: State, a: Action, k: Key, e: Entry)
    requires k in s.core.data ==> s.core.data[k] == e
    requires !a.Evict? && !a.Close? && (Stored(s.core, a).Some? ==> Stored(s.core, a).value.0 != k)
    ensures k in Step(s, a).core.data ==> Step(s, a).core.data[k] == e
  {
    CoreOf(s, a);
  }

  lemma {:induction false} UntouchedHas(d: int, clock: int, acts: seq<Action>, more: seq<Action>, k: Key, e: Entry)
    requires k in Run(d, clock, acts).core.data && Run(d, clock, acts).core.data[k] == e
    requires Untouched(d, clock, acts, more, k)
    ensures k in Run(d, clock, acts + more).core.data ==> Run(d, clock, acts + more).core.data[k] == e
  {
    hide Run, Step, Stored;
    if more == [] {
      assert acts + more == acts;
    } else {
      var rest, a := more[..|more| - 1], more[|more| - 1];
      UntouchedHas(d, clock, acts, rest, k, e);
      assert acts + more == (acts + rest) + [a];
      Unroll(d, clock, acts + rest, a);
      UntouchedStep(Run(d, clock, acts + rest), a, k, e);
    }
  }

  /** A resident entry reads as its value exactly until it expires, if nothing overwrites it. */
  lemma EntryReads(d: int, clock: int, acts: seq<Action>, more: seq<Action>, k: Key, e: Entry)
    requires k in Run(d, clock, acts).core.data && Run(d, clock, acts).core.data[k] == e
    requires Untouched(d, clock, acts, more, k)
    ensures var c := Run(d, clock, acts + more).core;
            ValueOf(c, k) == if c.clock < e.ts + d then Some(e.value) else None
  {
    hide Run, Untouched;
    UntouchedHas(d, clock, acts, more, k, e);
    DurationFixed(d, clock, acts + more);
    if Run(d, clock, acts + more).core.clock < e.ts + d {
      RefreshedSurvives(d, clock, acts, more, k);
    }
  }

  lemma SetStores(s: State, ts: int, k: Key, v: Value)
    requires s.core.open && CanWrite(s.core) && !s.core.nilLookup && ts <= s.core.clock
    ensures var c := Step(s, Set(ts, k, v)).core; k in c.data && c.data[k] == Entry(ts, v)
  {
    CoreOf(s, Set(ts, k, v));
  }

  /** After Set on an open cache the key reads the value exactly until d after Set read the clock. */
  lemma SetIsRead(d: int, clock: int, acts: seq<Action>, ts: int, k: Key, v: Value, more: seq<Action>)
    requires Run(d, clock, acts).core.open && ts <= Run(d, clock, acts).core.clock
    requires Untouched(d, clock, acts + [Set(ts, k, v)], more, k)
    ensures var c := Run(d, clock, acts + [Set(ts, k, v)] + more).core;
            ValueOf(c, k) == if c.clock < ts + d then Some(v) else None
  {
    hide Run, Step, Untouched;
    FlightHolds(d, clock, acts);
    Unroll(d, clock, acts, Set(ts, k, v));
    SetStores(Run(d, clock, acts), ts, k, v);
    EntryReads(d, clock, acts + [Set(ts, k, v)], more, k, Entry(ts, v));
  }

  /** A lookup of k returns v at time t; later its goroutine gets the lock of a cache that is still open.
      From then on the key reads v exactly until t + d, if nothing overwrites it. */
  lemma LookupIsRead(d: int, clock: int, acts: seq<Action>, p: nat, v: Value, wait: seq<Action>, more: seq<Action>)
    requires Run(d, clock, acts).core.open && InPhase(Run(d, clock, acts).core, p, Querying)
    requires var returned := acts + [RetrieveReturn(p, Found(v))];
             && Run(d, clock, returned + wait).core.open
             && RetrieveStore(p) !in wait
             && Untouched(d, clock, returned + wait + [RetrieveStore(p)], more, Run(d, clock, acts).core.calls[p].key)
    ensures var c := Run(d, clock, acts + [RetrieveReturn(p, Found(v))] + wait + [RetrieveStore(p)] + more).core;
            ValueOf(c, Run(d, clock, acts).core.calls[p].key)
            == if c.clock < Run(d, clock, acts).core.clock + d then Some(v) else None
  {
    hide Run, Step, Untouched;
    var t := Run(d, clock, acts).core.clock;
    var k := Run(d, clock, acts).core.calls[p].key;
    var returned := acts + [RetrieveReturn(p, Found(v))];
    FlightHolds(d, clock, acts);
    Returns(d, clock, acts, p, Found(v));
    KeyStays(d, clock, acts, p, Found(v));
    StillReturned(d, clock, returned, wait, p, Returned(Found(v), t), k);
    var before := returned + wait;
    FinishIsAtomic(d, clock, before, p, v, t);
    EntryReads(d, clock, before + [RetrieveStore(p)], more, k, Entry(t, v));
  }

  lemma KeyStays(d: int, clock: int, acts: seq<Action>, p: nat, answer: Answer)
    requires p < |Run(d, clock, acts).core.calls|
    ensures var c := Run(d, clock, acts + [RetrieveReturn(p, answer)]).core;
            p < |c.calls| && c.calls[p].key == Run(d, clock, acts).core.calls[p].key
  {
    AnswerIsFinal(d, clock, acts, [RetrieveReturn(p, answer)], p);
  }

  lemma WaitStep(c: Core, a: Action, p: nat, f: Phase)
    requires InPhase(c, p, f) && f.Returned? && a != RetrieveStore(p)
    ensures InPhase(CoreStep(c, a), p, f) && CoreStep(c, a).calls[p].key == c.calls[p].key
  {
    PhaseStep(c, a, p);
  }

  lemma {:induction false} StillReturned(d: int, clock: int, acts: seq<Action>, wait: seq<Action>, p: nat, f: Phase, k: Key)
    requires InPhase(Run(d, clock, acts).core, p, f) && f.Returned? && RetrieveStore(p) !in wait
    requires Run(d, clock, acts).core.calls[p].key == k
    ensures var c := Run(d, clock, acts + wait).core; InPhase(c, p, f) && c.calls[p].key == k
  {
    hide Run, Step, CoreStep;
    if wait == [] {
      assert acts + wait == acts;
    } else {
      var rest, a := wait[..|wait| - 1], wait[|wait| - 1];
      assert a in wait && forall x :: x in rest ==> x in wait;
      StillReturned(d, clock, acts, rest, p, f, k);
      assert acts + wait == (acts + rest) + [a];
      Unroll(d, clock, acts + rest, a);
      CoreCalls(Run(d, clock, acts + rest), a);
      WaitStep(Run(d, clock, acts + rest).core, a, p, f);
    }
  }

  /** A lookup that fails stores nothing, and its key can be looked up again. */
  lemma FailureStoresNothing(d: int, clock: int, acts: seq<Action>, p: nat, err: int, at: int)
    requires Run(d, clock, acts).core.open && InPhase(Run(d, clock, acts).core, p, Returned(Failed(err), at))
    ensures var c, c' := Run(d, clock, acts).core, Run(d, clock, acts + [RetrieveStore(p)]).core;
            c'.data == c.data && c.calls[p].key !in c'.pending && InPhase(c', p, Complete(Failed(err)))
  {
    FlightHolds(d, clock, acts);
    Unroll(d, clock, acts, RetrieveStore(p));
    CoreOf(Run(d, clock, acts), RetrieveStore(p));
  }

  // ---------------------------------------------------------------- who goes on to the second attempt

  /** A first attempt that misses on an open cache. */
  predicate Misses(c: Core, a: Action) {
    a.LookupRead? && !c.nilLookup && !c.writer && c.open && !Hit(c, a.k)
  }

  /** A second attempt. */
  predicate Retries(c: Core, a: Action) {
    a.LookupWrite? && !c.nilLookup && CanWrite(c) && a.k in c.missed
  }

  /** The callers of Lookup that have missed under the read lock and have not had the write lock yet. */
  ghost function Missed(d: int, clock: int, acts: seq<Action>): multiset<Key> {
    if acts == [] then multiset{}
    else
      var before, a := acts[..|acts| - 1], acts[|acts| - 1];
      var c := Run(d, clock, before).core;
      if Misses(c, a) then Missed(d, clock, before) + multiset{a.k}
      else if Retries(c, a) then Missed(d, clock, before) - multiset{a.k}
      else Missed(d, clock, before)
  }

  lemma MissedStep(c: Core, a: Action)
    ensures CoreStep(c, a).missed
            == if Misses(c, a) then c.missed + multiset{a.k}
               else if Retries(c, a) then c.missed - multiset{a.k} else c.missed
  {
  }

  /** A caller goes on to the write lock exactly if it missed: a hit is answered under the read lock. */
  lemma {:induction false} OnlyMissesRetry(d: int, clock: int, acts: seq<Action>)
    ensures Run(d, clock, acts).core.missed == Missed(d, clock, acts)
  {
    hide Step, CoreStep, Misses, Retries;
    if acts == [] {
      EmptyRun(d, clock);
    } else {
      var before, a := acts[..|acts| - 1], acts[|acts| - 1];
      OnlyMissesRetry(d, clock, before);
      assert acts == before + [a];
      Unroll(d, clock, before, a);
      CoreCalls(Run(d, clock, before), a);
      MissedStep(Run(d, clock, before).core, a);
    }
  }

  /** Everyone who misses and gets the write lock of an open cache hits there or joins the lookup of its key. */
  lemma RetryJoins(d: int, clock: int, acts: seq<Action>, k: Key)
    requires Run(d, clock, acts).core.open && k in Run(d, clock, acts).core.missed
    requires !Hit(Run(d, clock, acts).core, k)
    ensures var c := Run(d, clock, acts + [LookupWrite(k)]).core;
            k in c.pending && c.pending[k] < |c.calls| && c.calls[c.pending[k]].key == k
            && !c.calls[c.pending[k]].phase.Complete?
  {
    FlightHolds(d, clock, acts);
    Unroll(d, clock, acts, LookupWrite(k));
    CoreCalls(Run(d, clock, acts), LookupWrite(k));
    hide Run, Step;
  }

  // ---------------------------------------------------------------- Evict and Close

  /** After Evict no key reads anything, and what was resident has been released; lookups go on. */
  lemma EvictForgets(d: int, clock: int, acts: seq<Action>, k: Key)
    requires Run(d, clock, acts).core.open
    ensures var s, t := Run(d, clock, acts), Run(d, clock, acts + [Evict]);
            && ValueOf(t.core, k) == None
            && t.released == s.released + Residents(s.core.data)
            && t.core == s.core.(data := map[]) && t.log == []
  {
    FlightHolds(d, clock, acts);
    Unroll(d, clock, acts, Evict);
    hide Run, Residents;
  }

  /** Close does so too, forgets who is waiting, and is final. */
  lemma CloseForgets(d: int, clock: int, acts: seq<Action>, k: Key)
    requires Run(d, clock, acts).core.open
    ensures var s, t := Run(d, clock, acts), Run(d, clock, acts + [Close]);
            && !t.core.open && ValueOf(t.core, k) == None && t.core.pending == map[]
            && t.released == s.released + Residents(s.core.data)
  {
    FlightHolds(d, clock, acts);
    Unroll(d, clock, acts, Close);
    hide Run, Residents;
  }

  // ---------------------------------------------------------------- the cleaner sleeps until its time

  lemma SleepStep(s: State, a: Action, next: int)
    requires |s.cleaners| == 1 && s.cleaning && !a.CleanerRun?
    requires s.cleaners[0] == Sleeping(next) || (s.cleaners[0].Due? && s.cleaners[0].now >= next)
    ensures var t := Step(s, a);
            && |t.cleaners| == 1 && t.cleaning
            && (t.cleaners[0] == Sleeping(next) || (t.cleaners[0].Due? && t.cleaners[0].now >= next))
  {
    hide CoreStep, Residents;
  }

  /** A cleaner that sleeps until `next` makes its pass with no earlier time. */
  lemma {:induction false} SleepsUntilNext(d: int, clock: int, acts: seq<Action>, more: seq<Action>, next: int)
    requires Run(d, clock, acts).cleaners == [Sleeping(next)]
    requires forall i :: 0 <= i < |more| ==> !more[i].CleanerRun?
    ensures var s := Run(d, clock, acts + more);
            && |s.cleaners| == 1 && s.cleaning
            && (s.cleaners[0] == Sleeping(next) || (s.cleaners[0].Due? && s.cleaners[0].now >= next))
  {
    hide Run, Step;
    if more == [] {
      assert acts + more == acts;
      CleaningHolds(d, clock, acts);
    } else {
      var rest, a := more[..|more| - 1], more[|more| - 1];
      SleepsUntilNext(d, clock, acts, rest, next);
      assert acts + more == (acts + rest) + [a];
      Unroll(d, clock, acts + rest, a);
      SleepStep(Run(d, clock, acts + rest), a, next);
    }
  }

  lemma CleaningHolds(d: int, clock: int, acts: seq<Action>)
    ensures Run(d, clock, acts).cleaners != [] ==> Run(d, clock, acts).cleaning
  {
    OneCleaner(d, clock, acts);
  }

  /** And it can wake as soon as that time has come, with the time it then reads. */
  lemma WakesAtNext(d: int, clock: int, acts: seq<Action>, next: int)
    requires Run(d, clock, acts).cleaners == [Sleeping(next)] && !Run(d, clock, acts).core.nilLookup
    ensures Run(d, clock, acts + [CleanerWake(0)]).cleaners
            == if next <= Run(d, clock, acts).core.clock then [Due(Run(d, clock, acts).core.clock)] else [Sleeping(next)]
  {
    Unroll(d, clock, acts, CleanerWake(0));
    hide Run;
  }
}
