/** The single-flight lookups of cache/cache.go: who joins which lookup, and who is ever answered. */
module CacheFlights {
  import opened CacheProtocol
  import opened CacheTheorems

  ghost predicate FlightInv(c: Core) {
    && (c.open ==> CanWrite(c) && !c.nilLookup)
    && (!c.open ==> c.pending == map[])
    && (forall k :: k in c.pending ==>
          c.pending[k] < |c.calls| && c.calls[c.pending[k]].key == k && !c.calls[c.pending[k]].phase.Complete?)
    && (c.open ==> forall p :: 0 <= p < |c.calls| && !c.calls[p].phase.Complete? ==>
          c.calls[p].key in c.pending && c.pending[c.calls[p].key] == p)
  }

  lemma FlightLookup(c: Core, k: Key)
    requires FlightInv(c) && !c.nilLookup
    ensures FlightInv(LookupWriteStep(c, k))
  {
  }

  lemma FlightStore(c: Core, p: nat)
    requires FlightInv(c) && !c.nilLookup
    ensures FlightInv(RetrieveStoreStep(c, p))
  {
  }

  lemma FlightStart(c: Core, p: nat, canceled: bool)
    requires FlightInv(c) && !c.nilLookup
    ensures FlightInv(RetrieveStartStep(c, p, canceled))
  {
  }

  lemma FlightStep(c: Core, a: Action)
    requires FlightInv(c)
    ensures FlightInv(CoreStep(c, a))
  {
    hide LookupWriteStep, RetrieveStoreStep, RetrieveStartStep;
    if !c.nilLookup {
      match a
      case LookupWrite(k) => FlightLookup(c, k);
      case RetrieveStart(p, canceled) => FlightStart(c, p, canceled);
      case RetrieveStore(p) => FlightStore(c, p);
      case _ =>
    }
  }

  lemma {:induction false} FlightHolds(d: int, clock: int, acts: seq<Action>)
    ensures FlightInv(Run(d, clock, acts).core)
  {
    hide Step, CoreStep;
    if acts == [] {
    } else {
      var s, a := Run(d, clock, acts[..|acts| - 1]), acts[|acts| - 1];
      FlightHolds(d, clock, acts[..|acts| - 1]);
      FlightStep(s.core, a);
      CoreOf(s, a);
      assert Run(d, clock, acts) == Step(s, a);
    }
  }

  /** On an open cache two unfinished lookups of one key are the same lookup. */
  lemma SingleFlight(d: int, clock: int, acts: seq<Action>, p: nat, q: nat)
    requires Run(d, clock, acts).core.open
    requires p < |Run(d, clock, acts).core.calls| && q < |Run(d, clock, acts).core.calls|
    requires var calls := Run(d, clock, acts).core.calls;
             calls[p].key == calls[q].key && !calls[p].phase.Complete? && !calls[q].phase.Complete?
    ensures p == q
  {
    FlightHolds(d, clock, acts);
  }

  /** A lookup starts only on a miss with the write lock held, and only if none is pending for its key. */
  lemma StartsOnlyOnMiss(c: Core, a: Action)
    requires |CoreStep(c, a).calls| > |c.calls|
    ensures a.LookupWrite? && c.open && CanWrite(c) && !Hit(c, a.k) && a.k !in c.pending
    ensures CoreStep(c, a).calls == c.calls + [Call(a.k, Spawned)]
    ensures CoreStep(c, a).pending == c.pending[a.k := |c.calls|]
  {
  }

  /** Every lookup of a key but the last is complete. */
  ghost predicate Sequential(c: Core) {
    forall p, q :: 0 <= p < q < |c.calls| && c.calls[p].key == c.calls[q].key ==> c.calls[p].phase.Complete?
  }

  lemma SequentialStep(c: Core, a: Action)
    requires FlightInv(c) && Sequential(c)
    ensures Sequential(CoreStep(c, a))
  {
    var t := CoreStep(c, a);
    forall p, q | 0 <= p < q < |t.calls| && t.calls[p].key == t.calls[q].key
      ensures t.calls[p].phase.Complete?
    {
      PhaseStep(c, a, p);
      if q < |c.calls| {
        PhaseStep(c, a, q);
      } else {
        StartsOnlyOnMiss(c, a);
      }
      hide CoreStep;
    }
  }

  /** A lookup of a key starts only after every earlier one has ended, whatever Set, Evict and Close do. */
  lemma {:induction false} LookupsAreSequential(d: int, clock: int, acts: seq<Action>)
    ensures Sequential(Run(d, clock, acts).core)
  {
    hide Step, CoreStep, Sequential;
    if acts == [] {
      EmptyRun(d, clock);
      NoCallsYet(d, clock);
    } else {
      var before, a := acts[..|acts| - 1], acts[|acts| - 1];
      LookupsAreSequential(d, clock, before);
      FlightHolds(d, clock, before);
      assert acts == before + [a];
      Unroll(d, clock, before, a);
      CoreCalls(Run(d, clock, before), a);
      SequentialStep(Run(d, clock, before).core, a);
      SequentialSame(Run(d, clock, acts).core, CoreStep(Run(d, clock, before).core, a));
    }
  }

  lemma NoCallsYet(d: int, clock: int)
    ensures Sequential(Init(d, clock).core)
  {
  }

  lemma SequentialSame(c: Core, c': Core)
    requires c.(data := map[]) == c'.(data := map[])
    ensures Sequential(c) <==> Sequential(c')
  {
    assert c.calls == c'.calls;
  }

  /** A finished lookup leaves the pending table and enters the cache in one step, and takes no other
      lookup's place in doing so. */
  lemma {:induction false} FinishIsAtomic(d: int, clock: int, acts: seq<Action>, p: nat, v: Value, at: int)
    requires Run(d, clock, acts).core.open
    requires InPhase(Run(d, clock, acts).core, p, Returned(Found(v), at))
    ensures var c, c' := Run(d, clock, acts).core, Run(d, clock, acts + [RetrieveStore(p)]).core;
            var k := c.calls[p].key;
            && k in c.pending && c.pending[k] == p
            && k !in c'.pending && c'.pending.Keys == c.pending.Keys - {k}
            && k in c'.data && c'.data[k] == Entry(at, v)
            && InPhase(c', p, Complete(Found(v)))
  {
    FlightHolds(d, clock, acts);
    Unroll(d, clock, acts, RetrieveStore(p));
    CoreOf(Run(d, clock, acts), RetrieveStore(p));
  }

  // ---------------------------------------------------------------- every joined caller gets one answer

  lemma PhaseStep(c: Core, a: Action, p: nat)
    requires p < |c.calls|
    ensures p < |CoreStep(c, a).calls| && CoreStep(c, a).calls[p].key == c.calls[p].key
    ensures var f, g := c.calls[p].phase, CoreStep(c, a).calls[p].phase;
            && (f.Complete? || f.Abandoned? ==> g == f)
            && (f.Returned? ==> g == f || g == Complete(f.answer))
  {
  }

  lemma CoreCalls(s: State, a: Action)
    ensures Step(s, a).core.(data := map[]) == CoreStep(s.core, a).(data := map[])
  {
    CoreOf(s, a);
    CoreFrame(s.core, a);
  }

  /** What a lookup has answered, or that it was abandoned, never changes afterwards; so all callers that
      joined it get the same value and error. */
  lemma {:induction false} AnswerIsFinal(d: int, clock: int, acts: seq<Action>, more: seq<Action>, p: nat)
    requires p < |Run(d, clock, acts).core.calls|
    ensures var c, c' := Run(d, clock, acts).core, Run(d, clock, acts + more).core;
            && p < |c'.calls| && c'.calls[p].key == c.calls[p].key
            && (c.calls[p].phase.Complete? || c.calls[p].phase.Abandoned? ==> c'.calls[p].phase == c.calls[p].phase)
            && (c.calls[p].phase.Returned? ==>
                  c'.calls[p].phase in {c.calls[p].phase, Complete(c.calls[p].phase.answer)})
  {
    hide Step, CoreStep, Run;
    if more == [] {
      assert acts + more == acts;
    } else {
      var before, a := acts + more[..|more| - 1], more[|more| - 1];
      AnswerIsFinal(d, clock, acts, more[..|more| - 1], p);
      assert acts + more == before + [a];
      Unroll(d, clock, before, a);
      CoreCalls(Run(d, clock, before), a);
      PhaseStep(Run(d, clock, before).core, a, p);
    }
  }

  /** An abandoned lookup keeps its key's place in the pending table for as long as the cache is open, so
      every later caller that misses joins it. */
  lemma AbandonedKeepsKey(d: int, clock: int, acts: seq<Action>, more: seq<Action>, p: nat)
    requires InPhase(Run(d, clock, acts).core, p, Abandoned)
    requires Run(d, clock, acts + more).core.open
    ensures var k := Run(d, clock, acts).core.calls[p].key;
            var c := Run(d, clock, acts + more).core;
            k in c.pending && c.pending[k] == p && InPhase(c, p, Abandoned)
  {
    AnswerIsFinal(d, clock, acts, more, p);
    FlightHolds(d, clock, acts + more);
  }

  // ---------------------------------------------------------------- who is ever answered

  /** The lookup has not given up, can still take the lock, and can still call the lookup function. */
  predicate CanFinish(c: Core, p: nat) {
    p < |c.calls| && !c.calls[p].phase.Abandoned? && CanWrite(c) && (c.open || !c.calls[p].phase.Spawned?)
  }

  lemma StuckStep(c: Core, a: Action, p: nat)
    requires FlightInv(c) && p < |c.calls| && !c.calls[p].phase.Complete? && !CanFinish(c, p)
    ensures p < |CoreStep(c, a).calls| && !CoreStep(c, a).calls[p].phase.Complete? && !CanFinish(CoreStep(c, a), p)
  {
  }

  lemma {:induction false} StuckForever(d: int, clock: int, acts: seq<Action>, more: seq<Action>, p: nat)
    requires p < |Run(d, clock, acts).core.calls|
    requires !Run(d, clock, acts).core.calls[p].phase.Complete? && !CanFinish(Run(d, clock, acts).core, p)
    ensures var c := Run(d, clock, acts + more).core;
            p < |c.calls| && !c.calls[p].phase.Complete? && !CanFinish(c, p)
  {
    hide Step, CoreStep, Run;
    if more == [] {
      assert acts + more == acts;
    } else {
      var before, a := acts + more[..|more| - 1], more[|more| - 1];
      StuckForever(d, clock, acts, more[..|more| - 1], p);
      assert acts + more == before + [a];
      Unroll(d, clock, before, a);
      CoreCalls(Run(d, clock, before), a);
      FlightHolds(d, clock, before);
      StuckStep(Run(d, clock, before).core, a, p);
    }
  }

  lemma StepTo(d: int, clock: int, acts: seq<Action>, a: Action, p: nat)
    requires !Run(d, clock, acts).core.nilLookup && CanFinish(Run(d, clock, acts).core, p)
    requires var f := Run(d, clock, acts).core.calls[p].phase;
             if f.Spawned? then a == RetrieveStart(p, false)
             else if f.Querying? then a == RetrieveReturn(p, Failed(0))
             else f.Returned? && a == RetrieveStore(p)
    ensures var c, c' := Run(d, clock, acts).core, Run(d, clock, acts + [a]).core;
            && !c'.nilLookup && CanFinish(c', p)
            && var f, g := c.calls[p].phase, c'.calls[p].phase;
               if f.Spawned? then g.Querying? else if f.Querying? then g.Returned? else g.Complete?
  {
    Unroll(d, clock, acts, a);
    CoreCalls(Run(d, clock, acts), a);
    hide Step, Run;
  }

  lemma Finish(d: int, clock: int, acts: seq<Action>, p: nat) returns (more: seq<Action>)
    requires !Run(d, clock, acts).core.nilLookup && CanFinish(Run(d, clock, acts).core, p)
    ensures var c := Run(d, clock, acts + more).core; p < |c.calls| && c.calls[p].phase.Complete?
  {
    hide Step, CoreStep, Run;
    more := [];
    assert acts + more == acts;
    if Run(d, clock, acts + more).core.calls[p].phase.Spawned? {
      var a := RetrieveStart(p, false);
      StepTo(d, clock, acts + more, a, p);
      assert acts + (more + [a]) == (acts + more) + [a];
      more := more + [a];
    }
    if Run(d, clock, acts + more).core.calls[p].phase.Querying? {
      var a := RetrieveReturn(p, Failed(0));
      StepTo(d, clock, acts + more, a, p);
      assert acts + (more + [a]) == (acts + more) + [a];
      more := more + [a];
    }
    if Run(d, clock, acts + more).core.calls[p].phase.Returned? {
      var a := RetrieveStore(p);
      StepTo(d, clock, acts + more, a, p);
      assert acts + (more + [a]) == (acts + more) + [a];
      more := more + [a];
    }
  }

  /** Lookup is documented to return a value or an error.  A caller that joined lookup p can ever be
      answered if and only if: p was not abandoned by a context that was done when it started; no lock has
      been kept by a call on the closed cache; and Close did not come before p called the lookup function. */
  lemma AnsweredExactly(d: int, clock: int, acts: seq<Action>, p: nat)
    requires !Run(d, clock, acts).core.nilLookup && p < |Run(d, clock, acts).core.calls|
    requires !Run(d, clock, acts).core.calls[p].phase.Complete?
    ensures (exists more :: var c := Run(d, clock, acts + more).core;
                            p < |c.calls| && c.calls[p].phase.Complete?)
            <==> CanFinish(Run(d, clock, acts).core, p)
  {
    if CanFinish(Run(d, clock, acts).core, p) {
      var more := Finish(d, clock, acts, p);
    } else {
      forall more
        ensures var c := Run(d, clock, acts + more).core; !(p < |c.calls| && c.calls[p].phase.Complete?)
      {
        StuckForever(d, clock, acts, more, p);
      }
    }
  }

  lemma LockStep(c: Core, a: Action)
    requires !CanWrite(c)
    ensures !CanWrite(CoreStep(c, a))
  {
  }

  /** Value on a closed cache keeps the read lock, after which no section that writes ever runs again. */
  lemma {:induction false} KeptLockStaysKept(d: int, clock: int, acts: seq<Action>, more: seq<Action>)
    requires !CanWrite(Run(d, clock, acts).core)
    ensures !CanWrite(Run(d, clock, acts + more).core)
  {
    hide Step, CoreStep, Run;
    if more == [] {
      assert acts + more == acts;
    } else {
      var before, a := acts + more[..|more| - 1], more[|more| - 1];
      KeptLockStaysKept(d, clock, acts, more[..|more| - 1]);
      assert acts + more == before + [a];
      Unroll(d, clock, before, a);
      CoreCalls(Run(d, clock, before), a);
      LockStep(Run(d, clock, before).core, a);
    }
  }

  /** This action is a call that returns from the closed cache with the lock it has just taken. */
  predicate KeepsLock(c: Core, a: Action) {
    && !c.nilLookup && !c.open && !c.writer
    && (a.ReadValue? || a.LookupRead? || (a.LookupWrite? && a.k in c.missed && c.readers == 0))
  }

  ghost predicate LockKept(d: int, clock: int, acts: seq<Action>) {
    acts != [] &&
    var before := acts[..|acts| - 1];
    LockKept(d, clock, before) || KeepsLock(Run(d, clock, before).core, acts[|acts| - 1])
  }

  lemma LockKeptStep(c: Core, a: Action)
    ensures !CanWrite(CoreStep(c, a)) <==> !CanWrite(c) || KeepsLock(c, a)
  {
  }

  /** The lock is out of reach for every writer exactly if Value, or either attempt of Lookup, was called on
      the closed cache. */
  lemma {:induction false} LockLostExactly(d: int, clock: int, acts: seq<Action>)
    ensures !CanWrite(Run(d, clock, acts).core) <==> LockKept(d, clock, acts)
  {
    hide Step, CoreStep, KeepsLock;
    if acts == [] {
      EmptyRun(d, clock);
    } else {
      var before, a := acts[..|acts| - 1], acts[|acts| - 1];
      LockLostExactly(d, clock, before);
      assert acts == before + [a];
      Unroll(d, clock, before, a);
      CoreCalls(Run(d, clock, before), a);
      LockKeptStep(Run(d, clock, before).core, a);
    }
  }

  /** This action is a second attempt of Lookup that takes the write lock of the closed cache. */
  predicate KeepsWriteLock(c: Core, a: Action) {
    KeepsLock(c, a) && a.LookupWrite?
  }

  ghost predicate WriteLockKept(d: int, clock: int, acts: seq<Action>) {
    acts != [] &&
    var before := acts[..|acts| - 1];
    WriteLockKept(d, clock, before) || KeepsWriteLock(Run(d, clock, before).core, acts[|acts| - 1])
  }

  lemma WriteLockStep(c: Core, a: Action)
    ensures CoreStep(c, a).writer <==> c.writer || KeepsWriteLock(c, a)
  {
  }

  /** The write lock is lost exactly if the second attempt of a Lookup came to the closed cache. */
  lemma {:induction false} WriteLockLostExactly(d: int, clock: int, acts: seq<Action>)
    ensures Run(d, clock, acts).core.writer <==> WriteLockKept(d, clock, acts)
  {
    hide Step, CoreStep, KeepsWriteLock;
    if acts == [] {
      EmptyRun(d, clock);
    } else {
      var before, a := acts[..|acts| - 1], acts[|acts| - 1];
      WriteLockLostExactly(d, clock, before);
      assert acts == before + [a];
      Unroll(d, clock, before, a);
      CoreCalls(Run(d, clock, before), a);
      WriteLockStep(Run(d, clock, before).core, a);
    }
  }

  /** The sections that need the write lock, and those that need a read lock. */
  predicate Writes(a: Action) {
    a.Set? || a.LookupWrite? || a.RetrieveStore? || a.Evict? || a.Close? || a.CleanerRun?
  }

  predicate Reads(a: Action) { a.ReadValue? || a.LookupRead? }

  lemma LockedOut(s: State, a: Action)
    requires !CanWrite(s.core)
    ensures Writes(a) || (Reads(a) && s.core.writer) ==> Step(s, a) == s
    ensures s.core.writer ==> Step(s, a).core.writer
  {
    CoreOf(s, a);
    WriteLockStep(s.core, a);
  }

  lemma {:induction false} WriterStays(d: int, clock: int, acts: seq<Action>, more: seq<Action>)
    requires Run(d, clock, acts).core.writer
    ensures Run(d, clock, acts + more).core.writer
  {
    hide Step, Run;
    if more == [] {
      assert acts + more == acts;
    } else {
      var before, a := acts + more[..|more| - 1], more[|more| - 1];
      WriterStays(d, clock, acts, more[..|more| - 1]);
      assert acts + more == before + [a];
      Unroll(d, clock, before, a);
      LockedOut(Run(d, clock, before), a);
    }
  }

  /** After a lock has been lost no section that writes ever runs again; after the write lock has been lost no
      section that reads does either, although Value and Lookup are documented to return on a closed cache. */
  lemma NoSectionRunsAgain(d: int, clock: int, acts: seq<Action>, more: seq<Action>, a: Action)
    requires !CanWrite(Run(d, clock, acts).core)
    requires Writes(a) || (Reads(a) && Run(d, clock, acts).core.writer)
    ensures Run(d, clock, acts + more + [a]) == Run(d, clock, acts + more)
  {
    hide Step, Run;
    KeptLockStaysKept(d, clock, acts, more);
    if Reads(a) {
      WriterStays(d, clock, acts, more);
    }
    Unroll(d, clock, acts + more, a);
    LockedOut(Run(d, clock, acts + more), a);
  }

  /** A Lookup between whose attempts Close came keeps the write lock. */
  lemma CloseBetweenAttempts(d: int, clock: int, k: Key) returns (acts: seq<Action>)
    ensures Run(d, clock, acts).core.writer
  {
    hide Step;
    acts := [LookupRead(k)];
    assert [] + acts == acts;
    Unroll(d, clock, [], LookupRead(k));
    Unroll(d, clock, acts, Close);
    acts := acts + [Close];
    Unroll(d, clock, acts, LookupWrite(k));
    acts := acts + [LookupWrite(k)];
    assert Run(d, clock, []) == Init(d, clock);
    hide Run;
    MissThenClose(Init(d, clock), Step(Step(Init(d, clock), LookupRead(k)), Close), k);
  }

  lemma MissThenClose(s: State, t: State, k: Key)
    requires s.core.open && CanWrite(s.core) && !s.core.nilLookup && s.core.data == map[]
    requires t == Step(Step(s, LookupRead(k)), Close)
    ensures Step(t, LookupWrite(k)).core.writer
  {
    var missed := s.(core := s.core.(missed := s.core.missed + multiset{k}));
    assert Step(s, LookupRead(k)) == missed;
    assert !t.core.open && k in t.core.missed && CanWrite(t.core) && !t.core.nilLookup;
    hide Residents;
  }

  /** Locks are kept only by calls on a closed cache. */
  lemma LocksKeptOnlyWhenClosed(d: int, clock: int, acts: seq<Action>)
    ensures Run(d, clock, acts).core.open ==> CanWrite(Run(d, clock, acts).core)
  {
    FlightHolds(d, clock, acts);
  }

  // ---------------------------------------------------------------- two runs that leave callers without an answer

  /** The first lookup of a new cache has been spawned. */
  lemma SpawnedRun(d: int, clock: int, k: Key) returns (acts: seq<Action>)
    ensures Run(d, clock, acts)
            == Init(d, clock).(core := Init(d, clock).core.(pending := map[k := 0], calls := [Call(k, Spawned)]))
  {
    var s := Init(d, clock);
    var s1 := s.(core := s.core.(missed := multiset{k}));
    var s2 := s.(core := s.core.(pending := map[k := 0], calls := [Call(k, Spawned)]));
    assert Step(s, LookupRead(k)) == s1;
    assert Step(s1, LookupWrite(k)) == s2 by {
      assert multiset{k} - multiset{k} == s.core.missed;
    }
    EmptyRun(d, clock);
    Unroll(d, clock, [], LookupRead(k));
    acts := [] + [LookupRead(k)];
    Unroll(d, clock, acts, LookupWrite(k));
    acts := acts + [LookupWrite(k)];
    hide Run;
  }

  lemma AbandonedRun(d: int, clock: int, k: Key) returns (acts: seq<Action>)
    ensures var c := Run(d, clock, acts).core;
            c.open && !c.nilLookup && k in c.pending && c.pending[k] == 0 && InPhase(c, 0, Abandoned)
  {
    acts := SpawnedRun(d, clock, k);
    Unroll(d, clock, acts, RetrieveStart(0, true));
    acts := acts + [RetrieveStart(0, true)];
    hide Run;
  }

  /** A lookup that Close overtakes before it starts calls the cleared function. */
  lemma CloseMeetsSpawnedLookup(d: int, clock: int, k: Key) returns (acts: seq<Action>)
    ensures Run(d, clock, acts).core.nilLookup
  {
    hide Step, Run;
    acts := SpawnedRun(d, clock, k);
    var s := Run(d, clock, acts);
    Unroll(d, clock, acts, Close);
    acts := acts + [Close];
    Unroll(d, clock, acts, RetrieveStart(0, false));
    acts := acts + [RetrieveStart(0, false)];
    CloseThenStart(s, Step(s, Close));
  }

  lemma CloseThenStart(s: State, t: State)
    requires s.core.open && CanWrite(s.core) && !s.core.nilLookup && InPhase(s.core, 0, Spawned)
    requires t == Step(s, Close)
    ensures Step(t, RetrieveStart(0, false)).core.nilLookup
  {
    assert !t.core.open && !t.core.nilLookup && InPhase(t.core, 0, Spawned);
    hide Residents;
  }

  /** A lookup whose context is done when it starts is never answered, and holds its key's place. */
  lemma AbandonedNeverAnswers(d: int, clock: int, k: Key) returns (acts: seq<Action>)
    ensures var c := Run(d, clock, acts).core;
            c.open && !c.nilLookup && k in c.pending && c.pending[k] == 0 && InPhase(c, 0, Abandoned)
    ensures forall more, answer :: !InPhase(Run(d, clock, acts + more).core, 0, Complete(answer))
  {
    hide Run;
    acts := AbandonedRun(d, clock, k);
    forall more, answer ensures !InPhase(Run(d, clock, acts + more).core, 0, Complete(answer)) {
      AnswerIsFinal(d, clock, acts, more, 0);
    }
  }

  /** Value on a closed cache, once, is enough to shut out every writer for good. */
  lemma ValueAfterCloseKeepsLock(d: int, clock: int, k: Key) returns (acts: seq<Action>)
    ensures forall more :: !CanWrite(Run(d, clock, acts + more).core)
  {
    Unroll(d, clock, [], Close);
    acts := [] + [Close];
    Unroll(d, clock, acts, ReadValue(k));
    acts := acts + [ReadValue(k)];
    assert !CanWrite(Run(d, clock, acts).core);
    hide Run;
    forall more ensures !CanWrite(Run(d, clock, acts + more).core) {
      KeptLockStaysKept(d, clock, acts, more);
    }
  }

  // ---------------------------------------------------------------- the cleared lookup function

  ghost predicate HasSpawned(c: Core) {
    exists p :: 0 <= p < |c.calls| && c.calls[p].phase.Spawned?
  }

  lemma ClosedSpawnsNothing(c: Core, a: Action)
    requires FlightInv(c) && !c.open && !HasSpawned(c)
    ensures !CoreStep(c, a).open && !HasSpawned(CoreStep(c, a))
    ensures CoreStep(c, a).nilLookup == c.nilLookup
  {
    hide RetrieveStoreStep;
    assert !a.RetrieveStart? || !InPhase(c, a.p, Spawned);
    assert a.RetrieveStore? ==> !HasSpawned(RetrieveStoreStep(c, a.p)) && RetrieveStoreStep(c, a.p).open == c.open
                                && RetrieveStoreStep(c, a.p).nilLookup == c.nilLookup by {
      if a.RetrieveStore? {
        StoreSpawnsNothing(c, a.p);
      }
    }
  }

  lemma StoreSpawnsNothing(c: Core, p: nat)
    requires !c.open && !HasSpawned(c)
    ensures var t := RetrieveStoreStep(c, p); !HasSpawned(t) && !t.open && t.nilLookup == c.nilLookup
  {
  }

  lemma {:induction false} NeverNil(d: int, clock: int, acts: seq<Action>, more: seq<Action>)
    requires !Run(d, clock, acts).core.open && !HasSpawned(Run(d, clock, acts).core)
    ensures var c, c' := Run(d, clock, acts).core, Run(d, clock, acts + more).core;
            !c'.open && !HasSpawned(c') && c'.nilLookup == c.nilLookup
  {
    hide Step, CoreStep, Run, HasSpawned;
    if more == [] {
      assert acts + more == acts;
    } else {
      var before, a := acts + more[..|more| - 1], more[|more| - 1];
      NeverNil(d, clock, acts, more[..|more| - 1]);
      assert acts + more == before + [a];
      Unroll(d, clock, before, a);
      CoreCalls(Run(d, clock, before), a);
      FlightHolds(d, clock, before);
      ClosedSpawnsNothing(Run(d, clock, before).core, a);
      SameCalls(Run(d, clock, acts + more).core, CoreStep(Run(d, clock, before).core, a));
    }
  }

  lemma SameCalls(c: Core, c': Core)
    requires c.(data := map[]) == c'.(data := map[])
    ensures HasSpawned(c) <==> HasSpawned(c')
  {
    assert c.calls == c'.calls;
  }

  /** Close clears the lookup function while goroutines that have still to call it may exist.  On a closed
      cache that call can come, and end the process, if and only if some lookup has not started. */
  lemma NilLookupExactly(d: int, clock: int, acts: seq<Action>)
    requires !Run(d, clock, acts).core.open && !Run(d, clock, acts).core.nilLookup
    ensures (exists more :: Run(d, clock, acts + more).core.nilLookup) <==> HasSpawned(Run(d, clock, acts).core)
  {
    hide Run, Step, CoreStep;
    var s := Run(d, clock, acts);
    if HasSpawned(s.core) {
      var p: nat :| p < |s.core.calls| && s.core.calls[p].phase.Spawned?;
      var a := RetrieveStart(p, false);
      Unroll(d, clock, acts, a);
      CoreOf(s, a);
      NilLookupNext(s.core, a);
      assert Run(d, clock, acts + [a]).core.nilLookup;
    } else {
      forall more ensures !Run(d, clock, acts + more).core.nilLookup {
        NeverNil(d, clock, acts, more);
      }
    }
  }

  /** The call of the cleared function needs a closed cache and a lookup that has not started. */
  lemma NilLookupNext(c: Core, a: Action)
    requires !c.nilLookup
    ensures CoreStep(c, a).nilLookup <==> !c.open && a.RetrieveStart? && !a.canceled && InPhase(c, a.p, Spawned)
  {
  }
}
