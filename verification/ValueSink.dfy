/** valuesink/sink.go: a value container that keeps the last success, and releases those who wait for it. */
module ValueSink {
  import opened Base

  type Value(==, !new, 00)

  datatype Update = Update(value: Option<Value>, timestamp: int, err: Option<int>)

  datatype Action = Put(u: Update) | Register | Close

  /** groups[g] is the counter of the g-th WaitGroup that WaitReady ever made. */
  datatype State = State(
    value: Option<Value>,
    timestamp: int,
    err: Option<int>,
    ready: Option<nat>,
    groups: seq<int>,
    closed: bool)

  datatype Outcome = Ready | ErrClosed | Failed(err: int)

  function Init(): State {
    State(None, 0, None, None, [], false)
  }

  function Notify(s: State): State {
    if s.ready.Some? && s.ready.value < |s.groups| then
      s.(groups := s.groups[s.ready.value := s.groups[s.ready.value] - 1], ready := None)
    else s
  }

  function Step(s: State, a: Action): State {
    match a
    case Put(u) =>
      if s.closed then s
      else
        var initial := s.value == None;
        var t := if u.err == None then s.(value := u.value) else s;
        Notify(if u.err == None || initial then t.(timestamp := u.timestamp, err := u.err) else t)
    case Register =>
      if s.value.Some? || s.closed || s.ready.Some? then s
      else s.(ready := Some(|s.groups|), groups := s.groups + [1])
    case Close => if s.closed then s else Notify(s.(closed := true))
  }

  function Run(acts: seq<Action>): State {
    if acts == [] then Init() else Step(Run(acts[..|acts| - 1]), acts[|acts| - 1])
  }

  /** What a caller of WaitReady returns once its WaitGroup is done. */
  function AfterWait(s: State): Outcome {
    if s.value == None && s.err == None && s.closed then ErrClosed
    else if s.err == None then Ready
    else Failed(s.err.value)
  }

  // ---------------------------------------------------------------- the sink as a fold

  /** The updates that came before the first Close. */
  function Accepted(acts: seq<Action>): seq<Update> {
    if acts == [] then []
    else
      var before := acts[..|acts| - 1];
      Accepted(before) + if acts[|acts| - 1].Put? && Close !in before then [acts[|acts| - 1].u] else []
  }

  function LastSuccess(us: seq<Update>): Option<Update> {
    if us == [] then None
    else if us[|us| - 1].err == None then Some(us[|us| - 1])
    else LastSuccess(us[..|us| - 1])
  }

  function Held(us: seq<Update>): Option<Value> {
    if LastSuccess(us).Some? then LastSuccess(us).value.value else None
  }

  predicate Folded(s: State, us: seq<Update>) {
    && s.value == Held(us)
    && (s.value.Some? ==> s.timestamp == LastSuccess(us).value.timestamp && s.err == None)
    && (s.value == None && us != [] ==> s.timestamp == us[|us| - 1].timestamp && s.err == us[|us| - 1].err)
    && (us == [] ==> s.timestamp == 0 && s.err == None)
  }

  lemma LastSuccessNext(us: seq<Update>, u: Update)
    ensures LastSuccess(us + [u]) == if u.err == None then Some(u) else LastSuccess(us)
  {
    assert (us + [u])[..|us|] == us;
  }

  lemma PutFolds(s: State, us: seq<Update>, u: Update)
    requires Folded(s, us) && !s.closed
    ensures Folded(Step(s, Put(u)), us + [u])
  {
    LastSuccessNext(us, u);
    hide LastSuccess;
  }

  lemma AcceptedNext(acts: seq<Action>, a: Action)
    ensures Run(acts + [a]) == Step(Run(acts), a)
    ensures Accepted(acts + [a]) == if a.Put? && Close !in acts then Accepted(acts) + [a.u] else Accepted(acts)
  {
    assert (acts + [a])[..|acts|] == acts;
  }

  /** For any updates whatever, the sink holds the value of the last success.  With a value, its timestamp
      and no error; without one, the timestamp and the error of the last update of all. */
  lemma SinkIsFold(acts: seq<Action>)
    ensures var s, us := Run(acts), Accepted(acts);
            && s.value == Held(us)
            && (s.value.Some? ==> s.timestamp == LastSuccess(us).value.timestamp && s.err == None)
            && (s.value == None && us != [] ==> s.timestamp == us[|us| - 1].timestamp && s.err == us[|us| - 1].err)
            && (us == [] ==> s.timestamp == 0 && s.err == None)
            && (s.closed <==> Close in acts)
  {
    Folds(acts);
    ClosedIff(acts);
  }

  lemma {:induction false} ClosedIff(acts: seq<Action>)
    ensures Run(acts).closed <==> Close in acts
  {
    if acts == [] {
    } else {
      ClosedIff(acts[..|acts| - 1]);
      assert acts == acts[..|acts| - 1] + [acts[|acts| - 1]];
    }
  }

  lemma EmptyFolds()
    ensures Folded(Run([]), Accepted([]))
  {
  }

  lemma OtherFolds(s: State, us: seq<Update>, a: Action)
    requires Folded(s, us) && (!a.Put? || s.closed)
    ensures Folded(Step(s, a), us)
  {
    hide LastSuccess;
  }

  lemma {:induction false} Folds(acts: seq<Action>)
    ensures Folded(Run(acts), Accepted(acts))
  {
    hide *;
    if acts == [] {
      EmptyFolds();
    } else {
      var before, a := acts[..|acts| - 1], acts[|acts| - 1];
      Folds(before);
      assert acts == before + [a];
      AcceptedNext(before, a);
      ClosedIff(before);
      if a.Put? && Close !in before {
        assert a == Put(a.u);
        PutFolds(Run(before), Accepted(before), a.u);
      } else {
        OtherFolds(Run(before), Accepted(before), a);
      }
    }
  }

  /** What the Sink is documented to hold: the value of the last success that is not nil. */
  function LastValue(us: seq<Update>): Option<Value> {
    if us == [] then None
    else
      var last := us[|us| - 1];
      if last.err == None && last.value.Some? then last.value else LastValue(us[..|us| - 1])
  }

  lemma {:induction false} LastSuccessOrEarlier(us: seq<Update>)
    ensures LastSuccess(us) == None ==> LastValue(us) == None
    ensures LastSuccess(us).Some? && LastSuccess(us).value.value.Some? ==> LastValue(us) == LastSuccess(us).value.value
  {
    if us == [] {
    } else {
      LastSuccessOrEarlier(us[..|us| - 1]);
    }
  }

  /** The Sink holds the last value that is not nil exactly if no success with a nil value has come since one. */
  lemma HoldsLastValueExactly(acts: seq<Action>)
    ensures var us := Accepted(acts);
            Run(acts).value == LastValue(us)
            <==> (LastSuccess(us).Some? && LastSuccess(us).value.value == None ==> LastValue(us) == None)
  {
    SinkIsFold(acts);
    LastSuccessOrEarlier(Accepted(acts));
  }

  /** A nil success empties a sink, and WaitReady blocks again. */
  lemma NilSuccessEmpties(v: Value) returns (acts: seq<Action>)
    ensures acts == [Put(Update(Some(v), 0, None)), Put(Update(None, 1, None)), Register]
    ensures LastValue(Accepted(acts)) == Some(v) && Run(acts).value == None && Run(acts).ready.Some?
  {
    var first, second := Update(Some(v), 0, None), Update(None, 1, None);
    var a, b := [] + [Put(first)], [] + [Put(first)] + [Put(second)];
    AcceptedNext([], Put(first));
    AcceptedNext(a, Put(second));
    AcceptedNext(b, Register);
    acts := b + [Register];
    assert Accepted(acts) == [first, second] && [first, second][..1] == [first] && [first][..0] == [] by {
      assert Accepted([]) == [];
      hide Step, Run;
    }
    assert Run([]) == Init();
    hide Accepted, Run;
  }

  /** A nil success also releases those who wait, and tells them that there is a value. */
  lemma NilSuccessReleases() returns (acts: seq<Action>)
    ensures acts == [Register, Put(Update(None, 0, None))]
    ensures Run(acts).value == None && Run(acts).groups == [0] && AfterWait(Run(acts)) == Ready
  {
    var u := Update(None, 0, None);
    acts := [Register];
    assert acts == [] + [Register];
    AcceptedNext([], Register);
    AcceptedNext(acts, Put(u));
    assert acts + [Put(u)] == [Register, Put(u)];
    acts := acts + [Put(u)];
  }

  // ---------------------------------------------------------------- waiters

  ghost predicate Groups(s: State) {
    && (s.ready.Some? ==> s.ready.value < |s.groups| && !s.closed)
    && forall g :: 0 <= g < |s.groups| ==> s.groups[g] == if s.ready == Some(g) then 1 else 0
  }

  lemma GroupsStep(s: State, a: Action)
    requires Groups(s)
    ensures Groups(Step(s, a))
  {
  }

  lemma {:induction false} GroupsHold(acts: seq<Action>)
    ensures Groups(Run(acts))
  {
    if acts == [] {
    } else {
      GroupsHold(acts[..|acts| - 1]);
      GroupsStep(Run(acts[..|acts| - 1]), acts[|acts| - 1]);
      hide Step, Groups;
    }
  }

  ghost predicate Wakes(acts: seq<Action>) {
    exists i :: 0 <= i < |acts| && (acts[i].Put? || acts[i].Close?)
  }

  lemma WakesNext(acts: seq<Action>, a: Action)
    ensures Wakes(acts + [a]) <==> Wakes(acts) || a.Put? || a.Close?
  {
    var all := acts + [a];
    assert all[|acts|] == a;
    assert forall i :: 0 <= i < |acts| ==> all[i] == acts[i];
  }

  lemma GroupStep(s: State, a: Action, g: nat)
    requires Groups(s) && g < |s.groups|
    ensures g < |Step(s, a).groups|
    ensures Step(s, a).ready == Some(g) <==> s.ready == Some(g) && !a.Put? && !a.Close?
  {
  }

  /** A caller that registered is released exactly when an Update or a Close follows, and its WaitGroup is
      done exactly once. */
  lemma {:induction false} ReleasedByFirstUpdateOrClose(acts: seq<Action>, more: seq<Action>, g: nat)
    requires Run(acts).ready == Some(g)
    ensures var s := Run(acts + more);
            g < |s.groups| && s.groups[g] == (if Wakes(more) then 0 else 1) && (s.ready == Some(g) <==> !Wakes(more))
  {
    hide Step, Wakes;
    GroupsHold(acts + more);
    if more == [] {
      assert acts + more == acts;
      assert !Wakes([]) by { NeverWakes(); }
    } else {
      var rest, a := more[..|more| - 1], more[|more| - 1];
      ReleasedByFirstUpdateOrClose(acts, rest, g);
      GroupsHold(acts + rest);
      assert acts + more == (acts + rest) + [a];
      AcceptedNext(acts + rest, a);
      GroupStep(Run(acts + rest), a, g);
      assert more == rest + [a];
      WakesNext(rest, a);
    }
  }

  lemma NeverWakes()
    ensures !Wakes([])
  {
  }

  /** WaitReady is documented to return nil when the sink is ready with a value.  After a release it returns
      nil without a value in exactly one situation: the sink is open and its last update was a nil value
      without an error. */
  lemma {:induction false} ReadyWithoutValue(acts: seq<Action>)
    requires Wakes(acts)
    ensures var s, us := Run(acts), Accepted(acts);
            AfterWait(s) == Ready && s.value == None
            <==> Close !in acts && us != [] && us[|us| - 1].err == None && us[|us| - 1].value == None
  {
    SinkIsFold(acts);
    if Close !in acts {
      AcceptsWhileOpen(acts);
    }
    ErrOfEmptySink(acts);
  }

  /** What a released waiter is told: with a value, nothing; without one, the error of the last update; and if
      there is no such error, ErrClosed exactly on a closed sink. */
  lemma WaitersAreTold(acts: seq<Action>)
    requires Wakes(acts)
    ensures var us := Accepted(acts);
            AfterWait(Run(acts)) ==
              if LastSuccess(us).Some? && LastSuccess(us).value.value.Some? then Ready
              else if us != [] && us[|us| - 1].err.Some? then Failed(us[|us| - 1].err.value)
              else if Close in acts then ErrClosed
              else Ready
  {
    SinkIsFold(acts);
  }

  lemma {:induction false} AcceptsWhileOpen(acts: seq<Action>)
    requires Close !in acts && Wakes(acts)
    ensures Accepted(acts) != []
  {
    var before := acts[..|acts| - 1];
    assert forall a :: a in before ==> a in acts;
    if acts[|acts| - 1].Put? {
    } else {
      var i :| 0 <= i < |acts| && (acts[i].Put? || acts[i].Close?);
      assert acts[i] in acts;
      assert before[i] == acts[i];
      AcceptsWhileOpen(before);
    }
  }

  lemma ErrOfEmptySink(acts: seq<Action>)
    ensures var us := Accepted(acts);
            us != [] && us[|us| - 1].err == None ==> LastSuccess(us) == Some(us[|us| - 1])
  {
  }

  // ---------------------------------------------------------------- the object

  class Sink {
    var value: Option<Value>
    var timestamp: int
    var err: Option<int>
    var ready: Option<nat>
    var groups: seq<int>
    var closed: bool

    function Snapshot(): State
      reads this
    {
      State(value, timestamp, err, ready, groups, closed)
    }

    ghost predicate Valid()
      reads this
    {
      Groups(Snapshot())
    }

    constructor ()
      ensures Valid() && Snapshot() == Init()
    {
      value, timestamp, err, ready, groups, closed := None, 0, None, None, [], false;
    }

    method Done()
      requires Valid()
      modifies this`ready, this`groups
      ensures Snapshot() == Notify(old(Snapshot())) && ready == None
    {
      if ready.Some? {
        groups := groups[ready.value := groups[ready.value] - 1];
        ready := None;
      }
    }

    method CloseSink()
      requires Valid()
      modifies this
      ensures Valid() && Snapshot() == Step(old(Snapshot()), Close)
      ensures closed && ready == None
    {
      if closed {
        return;
      }
      closed := true;
      if ready.Some? {
        groups := groups[ready.value := groups[ready.value] - 1];
        ready := None;
      }
    }

    /** WaitReady, up to the wait; `wait` is the WaitGroup to wait for, if there is any need to. */
    method BeginWait() returns (r: Outcome, wait: Option<nat>)
      requires Valid()
      modifies this`ready, this`groups
      ensures Valid() && Snapshot() == Step(old(Snapshot()), Register)
      ensures wait.Some? <==> value == None && !closed
      ensures wait.Some? ==> ready == wait && wait.value < |groups| && groups[wait.value] == 1
      ensures wait == None ==> r == if value.Some? then Ready else ErrClosed
    {
      if value.Some? {
        return Ready, None;
      }
      if closed {
        return ErrClosed, None;
      }
      if ready == None {
        ready := Some(|groups|);
        groups := groups + [1];
      }
      return Ready, ready;
    }

    method Receive(v: Option<Value>, when: int, e: Option<int>)
      requires Valid()
      modifies this
      ensures Valid() && Snapshot() == Step(old(Snapshot()), Put(Update(v, when, e)))
      ensures !closed ==> ready == None
    {
      if closed {
        return;
      }
      var initial := value == None;
      if e == None {
        value := v;
      }
      if e == None || initial {
        timestamp := when;
        err := e;
      }
      Done();
    }
  }
}
