/** manifest/cursor.go and manifest/stats.go: reading a manifest record by record while tallying it. */
module ManifestCursor {
  import opened Base
  import opened ManifestFilter

  /** What one decoder read yields before the end of the stream: a record, or an error with as much of a
      record as had been decoded. */
  datatype Item = Record(resource: Resource) | Bad(code: int, partial: Resource)

  datatype ReadError = NoError | EndOfFile | DecodeError(code: int) | CursorClosed | OpenError(code: int)

  const ZERO := Resource("", "", "", 0, 0)

  /** A resolver maps a member's GUID to its host and distinguished name; nil resolves nothing. */
  type Resolver = Option<string -> Option<(string, string)>>

  datatype Stats = Stats(entries: nat, size: int, first: int, last: int)

  const EMPTY := Stats(0, 0, 0, 0)

  /** The int64 that a sum wraps to. */
  function Wrap(x: int): int {
    (x + 0x8000_0000_0000_0000) % 0x1_0000_0000_0000_0000 - 0x8000_0000_0000_0000
  }

  function Total(rs: seq<Resource>): int {
    if rs == [] then 0 else Total(rs[..|rs| - 1]) + rs[|rs| - 1].size
  }

  /** Count, sum, earliest and latest time of a list of resources. */
  ghost predicate Summarizes(s: Stats, rs: seq<Resource>) {
    && s.entries == |rs|
    && s.size == Wrap(Total(rs))
    && (rs == [] ==> s.first == 0 && s.last == 0)
    && (forall i :: 0 <= i < |rs| ==> s.first <= rs[i].time <= s.last)
    && (rs != [] ==> (exists i :: 0 <= i < |rs| && rs[i].time == s.first)
                     && (exists i :: 0 <= i < |rs| && rs[i].time == s.last))
  }

  /** Total adds up the sizes. */
  lemma {:induction false} TotalAdds(xs: seq<Resource>, ys: seq<Resource>)
    ensures Total(xs + ys) == Total(xs) + Total(ys)
    ensures forall r :: Total([r]) == r.size
  {
    if ys == [] {
      assert xs + ys == xs;
    } else {
      var last := |ys| - 1;
      TotalAdds(xs, ys[..last]);
      assert (xs + ys)[..|xs + ys| - 1] == xs + ys[..last];
    }
    forall r: Resource ensures Total([r]) == r.size {
      assert [r][..0] == [];
    }
  }

  lemma SummaryIsUnique(s: Stats, t: Stats, rs: seq<Resource>)
    requires Summarizes(s, rs) && Summarizes(t, rs)
    ensures s == t
  {
    if rs != [] {
      var i :| 0 <= i < |rs| && rs[i].time == s.first;
      var j :| 0 <= j < |rs| && rs[j].time == t.first;
      var k :| 0 <= k < |rs| && rs[k].time == s.last;
      var l :| 0 <= l < |rs| && rs[l].time == t.last;
    }
  }

  /** Stats.Add */
  method Add(s: Stats, r: Resource, ghost rs: seq<Resource>) returns (t: Stats)
    requires Summarizes(s, rs)
    ensures Summarizes(t, rs + [r])
  {
    t := s.(entries := s.entries + 1, size := Wrap(s.size + r.size));
    if t.entries == 1 {
      t := t.(first := r.time, last := r.time);
    } else {
      if r.time < t.first {
        t := t.(first := r.time);
      }
      if r.time > t.last {
        t := t.(last := r.time);
      }
    }
    AddSummarizes(s, t, r, rs);
  }

  /** Wrap is the int64 that x is modulo 2^64; a sum that fits is itself. */
  lemma WrapIs(x: int)
    ensures -0x8000_0000_0000_0000 <= Wrap(x) < 0x8000_0000_0000_0000
    ensures (x - Wrap(x)) % 0x1_0000_0000_0000_0000 == 0
    ensures -0x8000_0000_0000_0000 <= x < 0x8000_0000_0000_0000 ==> Wrap(x) == x
  {
    var m := 0x1_0000_0000_0000_0000;
    var q := (x + 0x8000_0000_0000_0000) / m;
    assert x - Wrap(x) == q * m;
    assert (q * m) % m == 0;
  }

  lemma WrapAdds(x: int, y: int)
    ensures Wrap(Wrap(x) + y) == Wrap(x + y)
  {
    var m := 0x1_0000_0000_0000_0000;
    var q := (x + 0x8000_0000_0000_0000) / m;
    assert Wrap(x) == x - q * m;
    assert (x + y + 0x8000_0000_0000_0000 - q * m) % m == (x + y + 0x8000_0000_0000_0000) % m;
  }

  lemma AddSummarizes(s: Stats, t: Stats, r: Resource, rs: seq<Resource>)
    requires Summarizes(s, rs)
    requires t.entries == s.entries + 1 && t.size == Wrap(s.size + r.size)
    requires t.first == (if rs == [] || r.time < s.first then r.time else s.first)
    requires t.last == (if rs == [] || r.time > s.last then r.time else s.last)
    ensures Summarizes(t, rs + [r])
  {
    var all := rs + [r];
    assert all[..|rs|] == rs;
    WrapAdds(Total(rs), r.size);
    hide Wrap;
    assert all[|rs|] == r;
    if rs != [] {
      var i :| 0 <= i < |rs| && rs[i].time == s.first;
      var j :| 0 <= j < |rs| && rs[j].time == s.last;
      assert all[i] == rs[i] && all[j] == rs[j];
    }
  }

  // ---------------------------------------------------------------- the records of a manifest

  function Resolve(resolver: Resolver, r: Resource): Resource {
    if resolver.Some? && resolver.value(r.partner).Some? then
      var partner := resolver.value(r.partner).value;
      r.(host := partner.0, dn := partner.1)
    else r
  }

  /** A partner that the resolver knows gets its host and its distinguished name; nothing else changes. */
  lemma ResolvedFields(resolver: Resolver, r: Resource, host: string, dn: string)
    ensures resolver == None || resolver.value(r.partner) == None ==> Resolve(resolver, r) == r
    ensures resolver.Some? && resolver.value(r.partner) == Some((host, dn)) ==>
              Resolve(resolver, r) == Resource(r.partner, host, dn, r.size, r.time)
  {
  }

  /** The records among the items, with their partners resolved. */
  function Records(resolver: Resolver, items: seq<Item>): seq<Resource> {
    if items == [] then []
    else
      var last := items[|items| - 1];
      Records(resolver, items[..|items| - 1]) + if last.Record? then [Resolve(resolver, last.resource)] else []
  }

  function Matching(filter: Filter, rs: seq<Resource>): seq<Resource> {
    if rs == [] then []
    else
      var last := rs[|rs| - 1];
      Matching(filter, rs[..|rs| - 1]) + if Match(filter, last) then [last] else []
  }

  lemma RecordsNext(resolver: Resolver, items: seq<Item>, pos: nat)
    requires pos < |items|
    ensures Records(resolver, items[..pos + 1])
            == if items[pos].Record? then Records(resolver, items[..pos]) + [Resolve(resolver, items[pos].resource)]
               else Records(resolver, items[..pos])
  {
    assert items[..pos + 1][..pos] == items[..pos];
  }

  lemma MatchingNext(filter: Filter, rs: seq<Resource>, r: Resource)
    ensures Matching(filter, rs + [r]) == if Match(filter, r) then Matching(filter, rs) + [r] else Matching(filter, rs)
  {
    assert (rs + [r])[..|rs|] == rs;
  }

  /** Matching picks from each part of a list what it picks from the whole, so that it keeps the order. */
  lemma {:induction false} MatchingParts(filter: Filter, xs: seq<Resource>, ys: seq<Resource>)
    ensures Matching(filter, xs + ys) == Matching(filter, xs) + Matching(filter, ys)
  {
    if ys == [] {
      assert xs + ys == xs;
    } else {
      hide Matching;
      var rest, last := ys[..|ys| - 1], ys[|ys| - 1];
      MatchingParts(filter, xs, rest);
      assert ys == rest + [last];
      Assoc(xs, rest, [last]);
      Assoc(Matching(filter, xs), Matching(filter, rest), [last]);
      MatchingNext(filter, xs + rest, last);
      MatchingNext(filter, rest, last);
    }
  }

  /** Of a single resource it picks what the filter accepts; a nil filter accepts everything. */
  lemma MatchingOne(filter: Filter, r: Resource)
    ensures Matching(filter, [r]) == if filter == None || filter.value(r) then [r] else []
  {
    assert [r][..0] == [];
  }

  /** So does Records. */
  lemma {:induction false} RecordsParts(resolver: Resolver, xs: seq<Item>, ys: seq<Item>)
    ensures Records(resolver, xs + ys) == Records(resolver, xs) + Records(resolver, ys)
  {
    if ys == [] {
      assert xs + ys == xs;
    } else {
      var last := |ys| - 1;
      RecordsParts(resolver, xs, ys[..last]);
      assert (xs + ys)[..|xs + ys| - 1] == xs + ys[..last];
    }
  }

  /** A bad record is left out, and any other one resolved. */
  lemma RecordsOne(resolver: Resolver, item: Item)
    ensures Records(resolver, [item]) == if item.Record? then [Resolve(resolver, item.resource)] else []
  {
    assert [item][..0] == [];
  }

  lemma EmptyManifest(resolver: Resolver, filter: Filter)
    ensures Records(resolver, []) == [] && Matching(filter, []) == [] && Summarizes(EMPTY, [])
  {
  }

  class Cursor {
    const items: seq<Item>   // what the decoder will read
    const resolver: Resolver
    const filter: Filter
    var open: bool           // reader != nil
    var pos: nat
    var total: Stats
    var filtered: Stats
    ghost var returned: seq<Resource>  // what Read has returned so far
    ghost var readOnly: bool           // End has not been called

    ghost function Seen(): seq<Resource>
      reads this
      requires pos <= |items|
    {
      Records(resolver, items[..pos])
    }

    /** The running statistics are those of the batch seen so far and of its matching part. */
    ghost predicate Valid()
      reads this
    {
      && pos <= |items|
      && Summarizes(total, Seen())
      && Summarizes(filtered, Matching(filter, Seen()))
      && (readOnly ==> returned == Matching(filter, Seen()))
    }

    constructor (items: seq<Item>, resolver: Resolver, filter: Filter)
      ensures Valid() && open && pos == 0 && readOnly && returned == []
      ensures this.items == items && this.resolver == resolver && this.filter == filter
    {
      this.items, this.resolver, this.filter := items, resolver, filter;
      open, pos, total, filtered := true, 0, EMPTY, EMPTY;
      returned, readOnly := [], true;
      new;
      EmptyManifest(resolver, filter);
      assert items[..0] == [];
      hide Summarizes, Records, Matching;
    }

    /** process: tallies the record at the decoder's position and says whether it matches. */
    method Process(r: Resource) returns (matched: bool)
      requires pos < |items| && items[pos].Record? && r == Resolve(resolver, items[pos].resource)
      requires Summarizes(total, Seen()) && Summarizes(filtered, Matching(filter, Seen()))
      modifies this`pos, this`total, this`filtered
      ensures pos == old(pos) + 1
      ensures Seen() == old(Seen()) + [r]
      ensures Summarizes(total, Seen()) && Summarizes(filtered, Matching(filter, Seen()))
      ensures matched == Match(filter, r)
      ensures Matching(filter, Seen())
              == if matched then Matching(filter, old(Seen())) + [r] else Matching(filter, old(Seen()))
    {
      hide Summarizes, Records, Matching;
      RecordsNext(resolver, items, pos);
      MatchingNext(filter, Seen(), r);
      ghost var before := Seen();
      matched := Match(filter, r);
      total := Add(total, r, before);
      if matched {
        filtered := Add(filtered, r, Matching(filter, before));
      }
      pos := pos + 1;
    }

    /** Read: the next matching record, or the error that came before one and what the decoder gave with it. */
    method Read() returns (r: Resource, err: ReadError)
      requires Valid()
      modifies this`pos, this`total, this`filtered, this`returned
      ensures Valid()
      ensures err.NoError? || err.EndOfFile? || err.DecodeError? || err.CursorClosed?
      ensures !old(open) <==> err == CursorClosed
      ensures err == CursorClosed ==> pos == old(pos)
      ensures old(pos) <= pos && returned == if err == NoError then old(returned) + [r] else old(returned)
      ensures Matching(filter, Seen())
              == if err == NoError then Matching(filter, old(Seen())) + [r] else Matching(filter, old(Seen()))
      ensures err == EndOfFile ==> pos == |items|
      ensures err == EndOfFile || err == CursorClosed ==> r == ZERO
      ensures err.DecodeError? ==> pos > 0 && items[pos - 1] == Bad(err.code, r)
      ensures err == NoError ==> pos > 0 && items[pos - 1].Record? && r == Resolve(resolver, items[pos - 1].resource)
      ensures forall i :: old(pos) <= i < (if err.DecodeError? then pos - 1 else pos) ==> items[i].Record?
    {
      hide Summarizes, Records, Matching;
      if !open {
        return ZERO, CursorClosed;
      }
      while pos < |items|
        invariant old(pos) <= pos <= |items|
        invariant Summarizes(total, Seen()) && Summarizes(filtered, Matching(filter, Seen()))
        invariant Matching(filter, Seen()) == Matching(filter, old(Seen()))
        invariant returned == old(returned)
        invariant forall i :: old(pos) <= i < pos ==> items[i].Record?
        decreases |items| - pos
      {
        if items[pos].Bad? {
          RecordsNext(resolver, items, pos);
          pos := pos + 1;
          return items[pos - 1].partial, DecodeError(items[pos - 1].code);
        }
        var resource := Resolve(resolver, items[pos].resource);
        var matched := Process(resource);
        if matched {
          returned := returned + [resource];
          return resource, NoError;
        }
      }
      return ZERO, EndOfFile;
    }

    /** End: reads on to the end of the manifest, or to the first error. */
    method End() returns (err: ReadError)
      requires Valid()
      modifies this`pos, this`total, this`filtered, this`readOnly
      ensures Valid()
      ensures !old(open) <==> err == CursorClosed
      ensures err == CursorClosed ==> pos == old(pos)
      ensures err.NoError? || err.DecodeError? || err.CursorClosed?
      ensures err == NoError ==> pos == |items|
      ensures err.DecodeError? ==> pos > 0 && items[pos - 1].Bad? && items[pos - 1].code == err.code
      ensures forall i :: old(pos) <= i < (if err.DecodeError? then pos - 1 else pos) ==> items[i].Record?
    {
      hide Summarizes, Records, Matching;
      if !open {
        return CursorClosed;
      }
      readOnly := false;
      while pos < |items|
        invariant old(pos) <= pos <= |items|
        invariant Summarizes(total, Seen()) && Summarizes(filtered, Matching(filter, Seen()))
        invariant !readOnly
        invariant forall i :: old(pos) <= i < pos ==> items[i].Record?
        decreases |items| - pos
      {
        if items[pos].Bad? {
          RecordsNext(resolver, items, pos);
          pos := pos + 1;
          return DecodeError(items[pos - 1].code);
        }
        var resource := Resolve(resolver, items[pos].resource);
        var matched := Process(resource);
      }
      return NoError;
    }

    /** Close: `closing` is what closing the reader returns, which happens only once. */
    method Close(closing: Option<int>) returns (err: Option<int>)
      requires Valid()
      modifies this`open
      ensures Valid() && !open
      ensures err == if old(open) then closing else None
    {
      if !open {
        return None;
      }
      open := false;
      return closing;
    }
  }

  /** Manifest.Stats: the statistics of the whole manifest and of its matching part, unless the manifest does
      not open or a record is bad. */
  method ManifestStats(opening: Option<int>, items: seq<Item>, filter: Filter)
    returns (filtered: Stats, total: Stats, err: ReadError)
    ensures opening.Some? ==> err == OpenError(opening.value)
    ensures opening == None ==> (err == NoError <==> forall i :: 0 <= i < |items| ==> items[i].Record?)
    ensures err == NoError ==>
              Summarizes(total, Records(None, items)) && Summarizes(filtered, Matching(filter, Records(None, items)))
    ensures err != NoError ==> filtered == total == EMPTY
  {
    filtered, total := EMPTY, EMPTY;
    if opening.Some? {
      return filtered, total, OpenError(opening.value);
    }
    var cursor := new Cursor(items, None, filter);
    err := cursor.End();
    if err == NoError {
      filtered, total := cursor.filtered, cursor.total;
      assert items[..|items|] == items;
    }
    var ignored := cursor.Close(None);
  }

  /** Up to n Reads, then End: the Reads return the first n matching records, or all if there are fewer, and
      the statistics are those of the whole manifest whatever was read before. */
  method ReadSomeThenEnd(cursor: Cursor, n: nat) returns (read: seq<Resource>, err: ReadError)
    requires cursor.Valid() && cursor.open && cursor.pos == 0 && cursor.readOnly && cursor.returned == []
    requires forall i :: 0 <= i < |cursor.items| ==> cursor.items[i].Record?
    modifies cursor
    ensures err == NoError
    ensures var all := Records(cursor.resolver, cursor.items);
            && Summarizes(cursor.total, all)
            && Summarizes(cursor.filtered, Matching(cursor.filter, all))
            && read <= Matching(cursor.filter, all)
            && (|read| == n || read == Matching(cursor.filter, all))
  {
    hide Summarizes, Records, Matching;
    read := [];
    assert cursor.items[..|cursor.items|] == cursor.items;
    for i := 0 to n
      invariant cursor.Valid() && cursor.open && cursor.readOnly && read == cursor.returned
      invariant |read| == i || cursor.pos == |cursor.items|
      invariant |read| <= i
    {
      var r, e := cursor.Read();
      if e == NoError {
        read := read + [r];
      }
    }
    MatchingPrefix(cursor.filter, cursor.resolver, cursor.items, cursor.pos);
    err := cursor.End();
  }

  lemma {:induction false} MatchingPrefix(filter: Filter, resolver: Resolver, items: seq<Item>, pos: nat)
    requires pos <= |items|
    ensures Matching(filter, Records(resolver, items[..pos])) <= Matching(filter, Records(resolver, items))
    decreases |items| - pos
  {
    if pos == |items| {
      assert items[..pos] == items;
    } else {
      RecordsNext(resolver, items, pos);
      var rs := Records(resolver, items[..pos]);
      if items[pos].Record? {
        MatchingNext(filter, rs, Resolve(resolver, items[pos].resource));
      }
      MatchingPrefix(filter, resolver, items, pos + 1);
      hide Records, Matching;
      assert Matching(filter, rs) <= Matching(filter, Records(resolver, items[..pos + 1]));
    }
  }
}
