/** The configuration records of dfsr/types.go that decide which backlogs a polling round computes. */
module Dfsr {

  datatype Connection = Connection(from: string, enabled: bool)

  datatype Member = Member(host: string, connections: seq<Connection>)

  datatype Group = Group(id: nat, members: seq<Member>)

  datatype Domain = Domain(groups: seq<Group>)

  /** The part of a backlog record that is fixed when the round starts. */
  datatype Backlog = Backlog(group: nat, from: string, to: string)
}
