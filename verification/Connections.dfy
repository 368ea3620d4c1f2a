/** monitor/utility.go: the backlogs that one polling round has to compute. */
module Connections {
  import opened Dfsr

  /** `before`, then the connections of one member without the disabled ones and those that name no source. */
  function OfMember(before: seq<Backlog>, group: nat, to: string, conns: seq<Connection>): seq<Backlog> {
    if conns == [] then before
    else
      var last := conns[|conns| - 1];
      var earlier := OfMember(before, group, to, conns[..|conns| - 1]);
      if last.from != "" && last.enabled then earlier + [Backlog(group, last.from, to)] else earlier
  }

  function OfMembers(before: seq<Backlog>, group: nat, members: seq<Member>): seq<Backlog> {
    if members == [] then before
    else
      var last := members[|members| - 1];
      var earlier := OfMembers(before, group, members[..|members| - 1]);
      if last.host == "" then earlier else OfMember(earlier, group, last.host, last.connections)
  }

  function OfGroups(groups: seq<Group>): seq<Backlog> {
    if groups == [] then []
    else OfMembers(OfGroups(groups[..|groups| - 1]), |groups| - 1, groups[|groups| - 1].members)
  }

  lemma NextConnection(before: seq<Backlog>, group: nat, to: string, conns: seq<Connection>, ci: nat)
    requires ci < |conns|
    ensures var earlier := OfMember(before, group, to, conns[..ci]);
            OfMember(before, group, to, conns[..ci + 1])
            == if conns[ci].from != "" && conns[ci].enabled then earlier + [Backlog(group, conns[ci].from, to)]
               else earlier
  {
    assert conns[..ci + 1][..ci] == conns[..ci];
  }

  lemma NextMember(before: seq<Backlog>, group: nat, members: seq<Member>, mi: nat)
    requires mi < |members|
    ensures var earlier := OfMembers(before, group, members[..mi]);
            OfMembers(before, group, members[..mi + 1])
            == if members[mi].host == "" then earlier
               else OfMember(earlier, group, members[mi].host, members[mi].connections)
  {
    assert members[..mi + 1][..mi] == members[..mi];
  }

  lemma NextGroup(groups: seq<Group>, gi: nat)
    requires gi < |groups|
    ensures OfGroups(groups[..gi + 1]) == OfMembers(OfGroups(groups[..gi]), gi, groups[gi].members)
  {
    assert groups[..gi + 1][..gi] == groups[..gi];
  }

  /** connections(domain), with its three nested loops. */
  method ConnectionsOf(domain: Domain) returns (output: seq<Backlog>)
    ensures output == OfGroups(domain.groups)
  {
    output := [];
    var gi := 0;
    while gi < |domain.groups|
      invariant 0 <= gi <= |domain.groups|
      invariant output == OfGroups(domain.groups[..gi])
    {
      var group := domain.groups[gi];
      ghost var start := output;
      var mi := 0;
      while mi < |group.members|
        invariant 0 <= mi <= |group.members|
        invariant output == OfMembers(start, gi, group.members[..mi])
      {
        var member := group.members[mi];
        NextMember(start, gi, group.members, mi);
        mi := mi + 1;
        var to := member.host;
        if to == "" {
          continue;
        }
        ghost var before := output;
        var ci := 0;
        while ci < |member.connections|
          invariant 0 <= ci <= |member.connections|
          invariant output == OfMember(before, gi, to, member.connections[..ci])
        {
          var conn := member.connections[ci];
          NextConnection(before, gi, to, member.connections, ci);
          ci := ci + 1;
          var from := conn.from;
          if from == "" {
            continue;
          }
          if !conn.enabled {
            continue;
          }
          output := output + [Backlog(gi, from, to)];
        }
        assert member.connections[..ci] == member.connections;
      }
      assert group.members[..mi] == group.members;
      NextGroup(domain.groups, gi);
      gi := gi + 1;
    }
    assert domain.groups[..gi] == domain.groups;
  }

  predicate IsBacklogOf(m: Member, c: Connection, b: Backlog) {
    m.host != "" && c.from != "" && c.enabled && b.to == m.host && b.from == c.from
  }

  ghost predicate Asks(m: Member, conns: seq<Connection>, b: Backlog) {
    exists ci :: 0 <= ci < |conns| && IsBacklogOf(m, conns[ci], b)
  }

  ghost predicate InMembers(members: seq<Member>, b: Backlog) {
    exists mi :: 0 <= mi < |members| && Asks(members[mi], members[mi].connections, b)
  }

  lemma {:induction false} OfMemberHas(before: seq<Backlog>, group: nat, m: Member, conns: seq<Connection>, b: Backlog)
    requires m.host != ""
    ensures b in OfMember(before, group, m.host, conns)
            <==> b in before || (b.group == group && Asks(m, conns, b))
  {
    if conns == [] {
    } else {
      var last := |conns| - 1;
      OfMemberHas(before, group, m, conns[..last], b);
      if Asks(m, conns[..last], b) {
        var ci :| 0 <= ci < last && IsBacklogOf(m, conns[..last][ci], b);
        assert IsBacklogOf(m, conns[ci], b);
      }
      if Asks(m, conns, b) {
        var ci :| 0 <= ci < |conns| && IsBacklogOf(m, conns[ci], b);
        if ci < last {
          assert IsBacklogOf(m, conns[..last][ci], b);
        }
      }
    }
  }

  lemma InMembersSnoc(members: seq<Member>, b: Backlog)
    requires members != []
    ensures var last := |members| - 1;
            InMembers(members, b) <==>
              InMembers(members[..last], b) || Asks(members[last], members[last].connections, b)
  {
    var last := |members| - 1;
    if InMembers(members[..last], b) {
      var mi :| 0 <= mi < last && Asks(members[..last][mi], members[..last][mi].connections, b);
      assert Asks(members[mi], members[mi].connections, b);
    }
    if InMembers(members, b) {
      var mi :| 0 <= mi < |members| && Asks(members[mi], members[mi].connections, b);
      if mi < last {
        assert Asks(members[..last][mi], members[..last][mi].connections, b);
      }
    }
  }

  lemma {:induction false} OfMembersHas(before: seq<Backlog>, group: nat, members: seq<Member>, b: Backlog)
    ensures b in OfMembers(before, group, members)
            <==> b in before || (b.group == group && InMembers(members, b))
  {
    if members == [] {
    } else {
      var last := |members| - 1;
      var m := members[last];
      OfMembersHas(before, group, members[..last], b);
      InMembersSnoc(members, b);
      if m.host != "" {
        OfMemberHas(OfMembers(before, group, members[..last]), group, m, m.connections, b);
      }
    }
  }

  /** A backlog is part of the round exactly if an enabled connection of a reachable member asks for it. */
  lemma {:induction false} RoundCoversDomain(groups: seq<Group>, b: Backlog)
    ensures b in OfGroups(groups) <==> b.group < |groups| && InMembers(groups[b.group].members, b)
  {
    if groups == [] {
    } else {
      var last := |groups| - 1;
      RoundCoversDomain(groups[..last], b);
      OfMembersHas(OfGroups(groups[..last]), last, groups[last].members, b);
    }
  }

  // ---------------------------------------------------------------- each connection once, in order

  /** How many connections of a member ask for `b`. */
  function AskedBy(m: Member, conns: seq<Connection>, b: Backlog): nat {
    if conns == [] then 0
    else AskedBy(m, conns[..|conns| - 1], b) + if IsBacklogOf(m, conns[|conns| - 1], b) then 1 else 0
  }

  function AskedByMembers(members: seq<Member>, b: Backlog): nat {
    if members == [] then 0
    else
      var last := members[|members| - 1];
      AskedByMembers(members[..|members| - 1], b) + AskedBy(last, last.connections, b)
  }

  lemma {:induction false} OfMemberCounts(before: seq<Backlog>, group: nat, m: Member, conns: seq<Connection>, b: Backlog)
    requires m.host != ""
    ensures multiset(OfMember(before, group, m.host, conns))[b]
            == multiset(before)[b] + if b.group == group then AskedBy(m, conns, b) else 0
  {
    if conns == [] {
    } else {
      OfMemberCounts(before, group, m, conns[..|conns| - 1], b);
    }
  }

  lemma {:induction false} NoHostAsksNothing(m: Member, conns: seq<Connection>, b: Backlog)
    requires m.host == ""
    ensures AskedBy(m, conns, b) == 0
  {
    if conns == [] {
    } else {
      NoHostAsksNothing(m, conns[..|conns| - 1], b);
    }
  }

  lemma {:induction false} OfMembersCounts(before: seq<Backlog>, group: nat, members: seq<Member>, b: Backlog)
    ensures multiset(OfMembers(before, group, members))[b]
            == multiset(before)[b] + if b.group == group then AskedByMembers(members, b) else 0
  {
    if members == [] {
    } else {
      var last, rest := members[|members| - 1], members[..|members| - 1];
      OfMembersCounts(before, group, rest, b);
      if last.host == "" {
        NoHostAsksNothing(last, last.connections, b);
      } else {
        OfMemberCounts(OfMembers(before, group, rest), group, last, last.connections, b);
      }
    }
  }

  /** A round asks for each backlog exactly as often as enabled connections ask for it. */
  lemma {:induction false} RoundCountsConnections(groups: seq<Group>, b: Backlog)
    ensures multiset(OfGroups(groups))[b]
            == if b.group < |groups| then AskedByMembers(groups[b.group].members, b) else 0
  {
    if groups == [] {
    } else {
      var last := |groups| - 1;
      RoundCountsConnections(groups[..last], b);
      OfMembersCounts(OfGroups(groups[..last]), last, groups[last].members, b);
    }
  }

  lemma {:induction false} OfMemberAppends(before: seq<Backlog>, group: nat, to: string, conns: seq<Connection>)
    ensures before <= OfMember(before, group, to, conns)
  {
    if conns == [] {
    } else {
      OfMemberAppends(before, group, to, conns[..|conns| - 1]);
    }
  }

  lemma {:induction false} OfMembersAppends(before: seq<Backlog>, group: nat, members: seq<Member>)
    ensures before <= OfMembers(before, group, members)
  {
    if members == [] {
    } else {
      var last, rest := members[|members| - 1], members[..|members| - 1];
      OfMembersAppends(before, group, rest);
      OfMemberAppends(OfMembers(before, group, rest), group, last.host, last.connections);
    }
  }

  /** The round lists the groups in their order: what comes for the first groups comes first. */
  lemma RoundIsInOrder(groups: seq<Group>)
    requires groups != []
    ensures OfGroups(groups[..|groups| - 1]) <= OfGroups(groups)
  {
    OfMembersAppends(OfGroups(groups[..|groups| - 1]), |groups| - 1, groups[|groups| - 1].members);
  }
}
