/** The expiring single-flight cache of cache/cache.go as a state machine.

    The core is what callers can observe: the stored entries, the pending table, the lookups in progress
    and the lock.  Around it sit the expiry log and the cleaner, which only delete.  Running the core alone
    gives the reference: a map of last writes that nothing ever cleans. */
module CacheProtocol {
  import opened Base

  type Key(==, !new, 00)

  type Value(==, !new, 00)

  /** What the lookup function returns: a value, or an error. */
  datatype Answer = Found(value: Value) | Failed(err: int)

  /** Where a `retrieve` goroutine stands.  Abandoned: its context was done when it started. */
  datatype Phase = Spawned | Abandoned | Querying | Returned(answer: Answer, at: int) | Complete(answer: Answer)

  /** A pendingEntry with its goroutine; the WaitGroup is released exactly in phase Complete. */
  datatype Call = Call(key: Key, phase: Phase)

  datatype Entry = Entry(ts: int, value: Value)

  datatype Record = Record(ts: int, key: Key)

  /** A `cleanup` goroutine: waiting for a time, or waiting for the lock with the time it read. */
  datatype Cleaner = Sleeping(next: int) | Due(now: int)

  datatype Core = Core(
    d: int,
    clock: int,
    open: bool,
    data: map<Key, Entry>,
    pending: map<Key, nat>,
    calls: seq<Call>,
    missed: multiset<Key>,  // callers of Lookup between their first and their second attempt
    readers: nat,           // read locks that were never given back
    writer: bool,           // a write lock that was never given back
    nilLookup: bool)        // a retrieve has called the lookup function that Close cleared

  datatype State = State(
    core: Core,
    log: seq<Record>,
    cleaning: bool,
    cleaners: seq<Cleaner>,
    inserted: multiset<Value>,
    released: multiset<Value>)

  datatype Action =
    | Tick(n: nat)
    | Set(ts: int, k: Key, v: Value)              // ts was read from the clock before the lock was taken
    | ReadValue(k: Key)
    | LookupRead(k: Key)                          // first attempt, with the read lock
    | LookupWrite(k: Key)                         // second attempt, with the write lock
    | RetrieveStart(p: nat, canceled: bool)
    | RetrieveReturn(p: nat, answer: Answer)
    | RetrieveStore(p: nat)
    | Evict
    | Close
    | CleanerWake(i: nat)
    | CleanerRun(i: nat)

  // ---------------------------------------------------------------- what callers can observe

  predicate Hit(c: Core, k: Key) {
    k in c.data && c.data[k].ts + c.d > c.clock
  }

  /** Cache.value */
  function ValueOf(c: Core, k: Key): Option<Value> {
    if Hit(c, k) then Some(c.data[k].value) else None
  }

  predicate CanWrite(c: Core) { c.readers == 0 && !c.writer }

  predicate InPhase(c: Core, p: nat, f: Phase) { p < |c.calls| && c.calls[p].phase == f }

  function WithPhase(c: Core, p: nat, f: Phase): Core
    requires p < |c.calls|
  {
    c.(calls := c.calls[p := c.calls[p].(phase := f)])
  }

  /** What this action stores, if it stores anything. */
  function Stored(c: Core, a: Action): Option<(Key, Entry)> {
    if !CanWrite(c) || !c.open then None
    else if a.Set? && a.ts <= c.clock then Some((a.k, Entry(a.ts, a.v)))
    else if a.RetrieveStore? && a.p < |c.calls| && c.calls[a.p].phase.Returned?
            && c.calls[a.p].phase.answer.Found? then
      Some((c.calls[a.p].key, Entry(c.calls[a.p].phase.at, c.calls[a.p].phase.answer.value)))
    else None
  }

  function Put(data: map<Key, Entry>, stored: Option<(Key, Entry)>): map<Key, Entry> {
    if stored.Some? then data[stored.value.0 := stored.value.1] else data
  }

  function LookupReadStep(c: Core, k: Key): Core {
    if c.writer then c
    else if !c.open then c.(readers := c.readers + 1)
    else if Hit(c, k) then c
    else c.(missed := c.missed + multiset{k})
  }

  function LookupWriteStep(c: Core, k: Key): Core {
    if k !in c.missed || !CanWrite(c) then c
    else
      var c' := c.(missed := c.missed - multiset{k});
      if !c.open then c'.(writer := true)
      else if Hit(c, k) || k in c.pending then c'
      else c'.(pending := c.pending[k := |c.calls|], calls := c.calls + [Call(k, Spawned)])
  }

  function RetrieveStartStep(c: Core, p: nat, canceled: bool): Core {
    if !InPhase(c, p, Spawned) then c
    else if canceled then WithPhase(c, p, Abandoned)
    else if !c.open then c.(nilLookup := true)
    else WithPhase(c, p, Querying)
  }

  function RetrieveStoreStep(c: Core, p: nat): Core {
    if !CanWrite(c) || p >= |c.calls| || !c.calls[p].phase.Returned? then c
    else
      var c' := WithPhase(c, p, Complete(c.calls[p].phase.answer));
      if !c.open then c'
      else c'.(data := Put(c.data, Stored(c, RetrieveStore(p))), pending := c.pending - {c.calls[p].key})
  }

  function CoreStep(c: Core, a: Action): Core {
    if c.nilLookup then c else
    match a
    case Tick(n) => c.(clock := c.clock + n)
    case Set(ts, k, v) => c.(data := Put(c.data, Stored(c, a)))
    case ReadValue(k) => if !c.writer && !c.open then c.(readers := c.readers + 1) else c
    case LookupRead(k) => LookupReadStep(c, k)
    case LookupWrite(k) => LookupWriteStep(c, k)
    case RetrieveStart(p, canceled) => RetrieveStartStep(c, p, canceled)
    case RetrieveReturn(p, answer) => if InPhase(c, p, Querying) then WithPhase(c, p, Returned(answer, c.clock)) else c
    case RetrieveStore(p) => RetrieveStoreStep(c, p)
    case Evict => if CanWrite(c) && c.open then c.(data := map[]) else c
    case Close => if CanWrite(c) && c.open then c.(open := false, data := map[], pending := map[]) else c
    case CleanerWake(i) => c
    case CleanerRun(i) => c
  }

  // ---------------------------------------------------------------- the log and the cleaner

  /** How many records `validate` pops: those before the first that has not expired. */
  function Popped(log: seq<Record>, d: int, now: int): (n: nat)
    ensures n <= |log|
    ensures forall i :: 0 <= i < n ==> log[i].ts + d <= now
    ensures n < |log| ==> log[n].ts + d > now
  {
    if log == [] || log[0].ts + d > now then 0 else 1 + Popped(log[1..], d, now)
  }

  ghost predicate Names(log: seq<Record>, k: Key) {
    exists i :: 0 <= i < |log| && log[i].key == k
  }

  /** Named by a popped record, and itself expired strictly before `now`. */
  ghost predicate Doomed(data: map<Key, Entry>, popped: seq<Record>, d: int, now: int, k: Key) {
    k in data && Names(popped, k) && data[k].ts + d < now
  }

  ghost function Kept(data: map<Key, Entry>, popped: seq<Record>, d: int, now: int): map<Key, Entry> {
    map k | k in data && !Doomed(data, popped, d, now, k) :: data[k]
  }

  ghost function Dropped(data: map<Key, Entry>, popped: seq<Record>, d: int, now: int): map<Key, Entry> {
    map k | k in data && Doomed(data, popped, d, now, k) :: data[k]
  }

  ghost function Pick(m: map<Key, Entry>): (k: Key)
    requires m != map[]
    ensures k in m
  {
    var k :| k in m;
    k
  }

  /** The values that a table holds. */
  ghost function Residents(m: map<Key, Entry>): multiset<Value> {
    if m == map[] then multiset{}
    else multiset{m[Pick(m)].value} + Residents(m - {Pick(m)})
  }

  function Init(d: int, clock: int): State {
    State(Core(d, clock, true, map[], map[], [], multiset{}, 0, false, false), [], false, [], multiset{}, multiset{})
  }

  function WithoutAt<T>(s: seq<T>, i: nat): seq<T>
    requires i < |s|
  {
    s[..i] + s[i + 1..]
  }

  /** cleanup's critical section: validate(now), then sleep again or end. */
  ghost function CleanerRunStep(s: State, i: nat): State {
    if !CanWrite(s.core) || i >= |s.cleaners| || !s.cleaners[i].Due? then s
    else
      var now := s.cleaners[i].now;
      var n := Popped(s.log, s.core.d, now);
      var s' := s.(core := s.core.(data := Kept(s.core.data, s.log[..n], s.core.d, now)),
                   log := s.log[n..],
                   released := s.released + Residents(Dropped(s.core.data, s.log[..n], s.core.d, now)));
      if n == |s.log| then s'.(cleaning := false, cleaners := WithoutAt(s.cleaners, i))
      else s'.(cleaners := s.cleaners[i := Sleeping(s.log[n].ts + s.core.d)])
  }

  /** Cache.set: overwrite, log, and start a cleaner if none is alive. */
  ghost function StoreStep(s: State, a: Action): State
    requires Stored(s.core, a).Some?
  {
    var (k, e) := Stored(s.core, a).value;
    var log := s.log + [Record(e.ts, k)];
    State(CoreStep(s.core, a),
          log,
          true,
          if s.cleaning then s.cleaners else s.cleaners + [Sleeping(log[0].ts)],
          s.inserted + multiset{e.value},
          s.released + if k in s.core.data then multiset{s.core.data[k].value} else multiset{})
  }

  ghost function Step(s: State, a: Action): State {
    if s.core.nilLookup then s
    else if a.CleanerWake? then
      if a.i < |s.cleaners| && s.cleaners[a.i].Sleeping? && s.cleaners[a.i].next <= s.core.clock then
        s.(cleaners := s.cleaners[a.i := Due(s.core.clock)])
      else s
    else if a.CleanerRun? then CleanerRunStep(s, a.i)
    else if Stored(s.core, a).Some? then StoreStep(s, a)
    else if (a.Evict? || a.Close?) && CanWrite(s.core) && s.core.open then
      s.(core := CoreStep(s.core, a), log := [], released := s.released + Residents(s.core.data))
    else s.(core := CoreStep(s.core, a))
  }

  ghost function Exec(s: State, acts: seq<Action>): State {
    if acts == [] then s else Step(Exec(s, acts[..|acts| - 1]), acts[|acts| - 1])
  }

  ghost function Run(d: int, clock: int, acts: seq<Action>): State {
    Exec(Init(d, clock), acts)
  }

  /** The reference: the same actions on the core alone, so that nothing is ever cleaned. */
  function Reference(d: int, clock: int, acts: seq<Action>): Core {
    if acts == [] then Init(d, clock).core
    else CoreStep(Reference(d, clock, acts[..|acts| - 1]), acts[|acts| - 1])
  }

  // ---------------------------------------------------------------- histories

  /** This action is a pass of `validate` with exactly the time `t`. */
  predicate SweepsAt(s: State, a: Action, t: int) {
    && !s.core.nilLookup && a.CleanerRun? && CanWrite(s.core)
    && a.i < |s.cleaners| && s.cleaners[a.i].Due? && s.cleaners[a.i].now == t
  }

  ghost predicate Swept(d: int, clock: int, acts: seq<Action>, t: int) {
    acts != [] &&
    var before := acts[..|acts| - 1];
    Swept(d, clock, before, t) || SweepsAt(Run(d, clock, before), acts[|acts| - 1], t)
  }

  /** The timestamps that have entered the log, in that order. */
  ghost function StoredTimes(d: int, clock: int, acts: seq<Action>): seq<int> {
    if acts == [] then []
    else
      var before, a := acts[..|acts| - 1], acts[|acts| - 1];
      var c := Run(d, clock, before).core;
      StoredTimes(d, clock, before)
      + if !c.nilLookup && Stored(c, a).Some? then [Stored(c, a).value.1.ts] else []
  }
}
