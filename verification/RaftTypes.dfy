/** The values of `catten-graft/src/types.rs` and `configuration.rs`. */
module RaftTypes {
  import opened Basics

  type Id = Bytes

  datatype Suffrage = Voter | Learner

  datatype Peer = Peer(id: Id, service: u64, suffrage: Suffrage)

  /** A joint configuration proposes at least one member. */
  type Proposal = ps: seq<Peer> | |ps| > 0 witness [Peer([], 0, Voter)]

  /**
   * What a log entry's data decodes to. Empty data is the no-op; data that is
   * not a configuration command belongs to the application.
   */
  datatype Command =
    | Noop
    | App(data: Bytes)
    | Joint(members: Proposal)
    | Finalize
    | Join(peer: Peer)
  {
    predicate IsMembership() {
      Joint? || Finalize?
    }
  }

  function IdsOf(ps: seq<Peer>): seq<Id> {
    seq(|ps|, i requires 0 <= i < |ps| => ps[i].id)
  }

  datatype Entry = Entry(term: nat, author: Id, command: Command)

  datatype Role = Follower | Candidate | Leader

  /** Term of the last entry, zero for the empty log. */
  function LastTerm(log: seq<Entry>): nat {
    if log == [] then 0 else log[|log| - 1].term
  }

  /** Term at a one-based index of a whole log, zero for index zero. */
  function TermOf(log: seq<Entry>, index: nat): nat
    requires index <= |log|
  {
    if index == 0 then 0 else log[index - 1].term
  }
}
