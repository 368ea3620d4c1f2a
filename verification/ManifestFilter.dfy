/** manifest/filter.go and manifest/mfilter/boolean.go: filters that may be nil, and their combinators. */
module ManifestFilter {
  import opened Base

  datatype Resource = Resource(partner: string, host: string, dn: string, size: int, time: int)

  /** A filter function, or nil. */
  type Filter = Option<Resource -> bool>

  /** Filter.Match: a nil filter matches everything. */
  predicate Match(f: Filter, r: Resource) {
    f == None || f.value(r)
  }

  function NonNil(filters: seq<Filter>): seq<Filter> {
    if filters == [] then []
    else
      var last := filters[|filters| - 1];
      NonNil(filters[..|filters| - 1]) + if last.Some? then [last] else []
  }

  /** selectNonNil */
  method SelectNonNil(filters: seq<Filter>) returns (selected: seq<Filter>)
    ensures selected == NonNil(filters)
    ensures forall i :: 0 <= i < |selected| ==> selected[i].Some? && selected[i] in filters
  {
    selected := [];
    for i := 0 to |filters|
      invariant selected == NonNil(filters[..i])
      invariant forall j :: 0 <= j < |selected| ==> selected[j].Some? && selected[j] in filters
    {
      assert filters[..i + 1][..i] == filters[..i];
      if filters[i].Some? {
        selected := selected + [filters[i]];
      }
    }
    assert filters[..|filters|] == filters;
  }

  /** The loop of the closure that And returns. */
  predicate All(filters: seq<Filter>, r: Resource) {
    filters == [] || (Match(filters[0], r) && All(filters[1..], r))
  }

  /** The loop of the closure that Or returns. */
  predicate Any(filters: seq<Filter>, r: Resource) {
    filters != [] && (Match(filters[0], r) || Any(filters[1..], r))
  }

  function And(filters: seq<Filter>): Filter {
    var selected := NonNil(filters);
    if selected == [] then None else Some(r => All(selected, r))
  }

  function Or(filters: seq<Filter>): Filter {
    var selected := NonNil(filters);
    if selected == [] then None else Some(r => Any(selected, r))
  }

  function Not(f: Filter): Filter {
    Some(r => !Match(f, r))
  }

  // ---------------------------------------------------------------- what the combinators mean

  lemma {:induction false} AllIs(filters: seq<Filter>, r: Resource)
    ensures All(filters, r) <==> forall i :: 0 <= i < |filters| ==> Match(filters[i], r)
  {
    if filters == [] {
    } else {
      AllIs(filters[1..], r);
      assert forall i :: 1 <= i < |filters| ==> filters[i] == filters[1..][i - 1];
    }
  }

  lemma {:induction false} AnyIs(filters: seq<Filter>, r: Resource)
    ensures Any(filters, r) <==> exists i :: 0 <= i < |filters| && Match(filters[i], r)
  {
    if filters == [] {
    } else {
      AnyIs(filters[1..], r);
      if exists i :: 0 <= i < |filters| && Match(filters[i], r) {
        var i :| 0 <= i < |filters| && Match(filters[i], r);
        assert i > 0 ==> filters[i] == filters[1..][i - 1];
      }
    }
  }

  ghost predicate Holds(filters: seq<Filter>, r: Resource) {
    exists i :: 0 <= i < |filters| && filters[i].Some? && Match(filters[i], r)
  }

  lemma {:induction false} NonNilKeeps(filters: seq<Filter>, f: Filter)
    ensures f in NonNil(filters) <==> f in filters && f.Some?
  {
    if filters == [] {
    } else {
      var last := |filters| - 1;
      NonNilKeeps(filters[..last], f);
      assert filters == filters[..last] + [filters[last]];
    }
  }

  /** And is true where every filter, nil or not, matches. */
  lemma AndMeans(filters: seq<Filter>, r: Resource)
    ensures Match(And(filters), r) <==> forall i :: 0 <= i < |filters| ==> Match(filters[i], r)
  {
    var selected := NonNil(filters);
    AllIs(selected, r);
    forall i | 0 <= i < |filters| ensures filters[i].Some? ==> filters[i] in selected {
      NonNilKeeps(filters, filters[i]);
    }
    forall i | 0 <= i < |selected| ensures selected[i] in filters {
      NonNilKeeps(filters, selected[i]);
    }
  }

  /** Or is true where some filter that is not nil matches, or where there is no such filter at all. */
  lemma OrMeans(filters: seq<Filter>, r: Resource)
    ensures Match(Or(filters), r)
            <==> (forall i :: 0 <= i < |filters| ==> filters[i] == None) || Holds(filters, r)
  {
    var selected := NonNil(filters);
    AnyIs(selected, r);
    forall i | 0 <= i < |filters| ensures filters[i].Some? ==> filters[i] in selected {
      NonNilKeeps(filters, filters[i]);
    }
    forall i | 0 <= i < |selected| ensures selected[i] in filters && selected[i].Some? {
      NonNilKeeps(filters, selected[i]);
    }
    if Any(selected, r) {
      var i :| 0 <= i < |selected| && Match(selected[i], r);
      var j :| 0 <= j < |filters| && filters[j] == selected[i];
      assert Holds(filters, r);
    }
    if Holds(filters, r) {
      var i :| 0 <= i < |filters| && filters[i].Some? && Match(filters[i], r);
      var j :| 0 <= j < |selected| && selected[j] == filters[i];
      assert Match(selected[j], r);
    }
    assert selected == [] <==> forall i :: 0 <= i < |filters| ==> filters[i] == None by {
      if selected != [] {
        assert selected[0] in filters;
      }
    }
  }

  /** A conjunction of conjunctions is one conjunction. */
  lemma AndFlattens(xs: seq<Filter>, ys: seq<Filter>, r: Resource)
    ensures Match(And([And(xs), And(ys)]), r) <==> Match(And(xs + ys), r)
  {
    AndMeans(xs, r);
    AndMeans(ys, r);
    AndMeans([And(xs), And(ys)], r);
    AndMeans(xs + ys, r);
    hide And;
    var both := [And(xs), And(ys)];
    assert Match(both[0], r) == Match(And(xs), r) && Match(both[1], r) == Match(And(ys), r);
    assert forall i :: 0 <= i < |xs| ==> (xs + ys)[i] == xs[i];
    assert forall i :: 0 <= i < |ys| ==> (xs + ys)[|xs| + i] == ys[i];
  }

  lemma OrNil(xs: seq<Filter>)
    ensures Or(xs) == None <==> forall i :: 0 <= i < |xs| ==> xs[i] == None
  {
    forall i | 0 <= i < |xs| ensures xs[i].Some? ==> xs[i] in NonNil(xs) {
      NonNilKeeps(xs, xs[i]);
    }
    if NonNil(xs) != [] {
      NonNilKeeps(xs, NonNil(xs)[0]);
    }
  }

  lemma {:induction false} NonNilEmpty(xs: seq<Filter>)
    ensures NonNil(xs) == [] <==> forall i :: 0 <= i < |xs| ==> xs[i] == None
  {
    if xs == [] {
    } else {
      NonNilEmpty(xs[..|xs| - 1]);
    }
  }

  /** Both combinators return nil exactly if there is no filter that is not nil. */
  lemma NilExactly(xs: seq<Filter>)
    ensures And(xs) == None <==> forall i :: 0 <= i < |xs| ==> xs[i] == None
    ensures Or(xs) == None <==> forall i :: 0 <= i < |xs| ==> xs[i] == None
  {
    NonNilEmpty(xs);
  }

  lemma HoldsConcat(xs: seq<Filter>, ys: seq<Filter>, r: Resource)
    ensures Holds(xs + ys, r) <==> Holds(xs, r) || Holds(ys, r)
  {
    var all := xs + ys;
    if Holds(xs, r) {
      var i :| 0 <= i < |xs| && xs[i].Some? && Match(xs[i], r);
      assert all[i] == xs[i];
    }
    if Holds(ys, r) {
      var i :| 0 <= i < |ys| && ys[i].Some? && Match(ys[i], r);
      assert all[|xs| + i] == ys[i];
    }
    if Holds(all, r) {
      var i :| 0 <= i < |all| && all[i].Some? && Match(all[i], r);
      if i < |xs| {
        assert xs[i] == all[i];
      } else {
        assert ys[i - |xs|] == all[i];
      }
    }
  }

  /** A disjunction of disjunctions is one disjunction, because a disjunction of nothing is dropped. */
  lemma OrFlattens(xs: seq<Filter>, ys: seq<Filter>, r: Resource)
    ensures Match(Or([Or(xs), Or(ys)]), r) <==> Match(Or(xs + ys), r)
  {
    var both := [Or(xs), Or(ys)];
    OrMeans(xs, r);
    OrMeans(ys, r);
    OrMeans(both, r);
    OrMeans(xs + ys, r);
    OrNil(xs);
    OrNil(ys);
    HoldsConcat(xs, ys, r);
    hide Or;
    assert Holds(both, r) <==> (both[0].Some? && Match(both[0], r)) || (both[1].Some? && Match(both[1], r));
    assert forall i :: 0 <= i < |xs| ==> (xs + ys)[i] == xs[i];
    assert forall i :: 0 <= i < |ys| ==> (xs + ys)[|xs| + i] == ys[i];
  }

  function Negated(xs: seq<Filter>): seq<Filter> {
    seq(|xs|, i requires 0 <= i < |xs| => Not(xs[i]))
  }

  /** The first law of De Morgan holds exactly for a non-empty list. */
  lemma DeMorganAnd(xs: seq<Filter>, r: Resource)
    ensures (Match(Not(And(xs)), r) <==> Match(Or(Negated(xs)), r)) <==> xs != []
  {
    AndMeans(xs, r);
    OrMeans(Negated(xs), r);
    hide And, Or;
    forall i | 0 <= i < |xs| ensures Match(Negated(xs)[i], r) <==> !Match(xs[i], r) {
    }
    if xs != [] {
      assert Negated(xs)[0].Some?;
      if !Match(And(xs), r) {
        var i :| 0 <= i < |xs| && !Match(xs[i], r);
        assert Negated(xs)[i].Some? && Match(Negated(xs)[i], r);
      }
    }
  }

  /** The second holds at a resource exactly if the list is not empty and either has no nil filter or is a
      disjunction that matches there: Or drops a nil filter, where Not turns it into one that never matches. */
  lemma DeMorganOr(xs: seq<Filter>, r: Resource)
    ensures (Match(Not(Or(xs)), r) <==> Match(And(Negated(xs)), r))
            <==> xs != [] && (None !in xs || Match(Or(xs), r))
  {
    OrMeans(xs, r);
    AndMeans(Negated(xs), r);
    hide And, Or;
    forall i | 0 <= i < |xs| ensures Match(Negated(xs)[i], r) <==> !Match(xs[i], r) {
    }
    if None in xs {
      var i :| 0 <= i < |xs| && xs[i] == None;
      assert !Match(Negated(xs)[i], r);
    } else if Match(And(Negated(xs)), r) {
      assert xs != [] ==> xs[0] in xs;
      assert forall i :: 0 <= i < |xs| ==> !Match(xs[i], r) by {
        assert forall i :: 0 <= i < |xs| ==> Match(Negated(xs)[i], r);
      }
    } else {
      var i :| 0 <= i < |xs| && !Match(Negated(xs)[i], r);
      assert xs[i] in xs;
      assert xs[i].Some? && Match(xs[i], r);
    }
  }
}
