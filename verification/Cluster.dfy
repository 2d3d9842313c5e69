/**
 * A cluster of nodes with a fixed, stable membership.
 *
 * The network only grows: a message may be received late, repeatedly, out of order or never.
 * A crash may fall after any durable write of any handler.
 */
module Cluster {
  import opened Basics
  import opened RaftTypes
  import opened Membership
  import opened LogStore
  import opened Node
  import opened Handlers

  datatype Body =
    | AskVote(vote: VoteRequest)
    | TellVote(voted: VoteReply)
    | AskAppend(append: AppendRequest)
    | TellAppend(appended: AppendReply)
    | AskChunk(chunk: Chunk)
    | TellChunk(received: ChunkReply, sentNext: nat, sentDone: bool)

  datatype Message = Message(to: Id, body: Body)

  datatype Event =
    | Timeout
    | Deliver(body: Body)
    | Beat(peer: Id)
    | Submit(command: Command)
    | Read(query: Bytes, token: nat)

  datatype Cluster<S> = Cluster(nodes: map<Id, Node<S>>, net: set<Message>)

  predicate IsPlain(c: Command) {
    c.Noop? || c.App?
  }

  // ---------------------------------------------------------------- one node reacts

  function Solicitations<S>(n: Node<S>): set<Message> {
    if !MayCampaign(n) then {}
    else set p | p in Voters(Effective(n).current) && p != n.me :: Message(p, AskVote(Solicit(n)))
  }

  function Receive<S>(env: Env<S>, n: Node<S>, body: Body): (Node<S>, set<Message>) {
    match body
    case AskVote(req) =>
      var r := HandleVoteRequest(n, req);
      (r.0, {Message(req.candidate, TellVote(r.1))})
    case TellVote(reply) => (HandleVoteReply(env, n, reply.peer, reply), {})
    case AskAppend(req) =>
      var r := HandleAppend(env, n, req);
      (r.0, {Message(req.leader, TellAppend(r.1))})
    case TellAppend(reply) => (HandleAppendReply(env, n, reply.peer, reply), {})
    case AskChunk(req) =>
      var r := HandleChunk(env, n, req);
      (r.0, {Message(req.leader, TellChunk(r.1, req.offset + |req.data|, req.done))})
    case TellChunk(reply, next, done) => (HandleChunkReply(env, n, reply.peer, reply, next, done), {})
  }

  function Emit(peer: Id, out: Outbound): set<Message> {
    match out
    case SendNothing => {}
    case SendAppend(req) => {Message(peer, AskAppend(req))}
    case SendChunk(req) => {Message(peer, AskChunk(req))}
  }

  predicate Enabled<S>(n: Node<S>, net: set<Message>, ev: Event) {
    match ev
    case Deliver(body) => Message(n.me, body) in net
    case Beat(peer) => n.role == Leader && peer in Others(n)
    case Submit(command) => IsPlain(command)
    case _ => true
  }

  /** The node after an event, and what it sends. */
  function React<S>(env: Env<S>, n: Node<S>, ev: Event): (Node<S>, set<Message>) {
    match ev
    case Timeout => (StartElection(env, n), Solicitations(n))
    case Deliver(body) => Receive(env, n, body)
    case Beat(peer) => (n, Emit(peer, Heartbeat(env, n, peer)))
    case Submit(command) => (SubmitCommand(env, n, command).0, {})
    case Read(query, token) => (BeginRead(env, n, query, token).0, {})
  }

  // ---------------------------------------------------------------- the cluster steps

  /** `v` handles an event to its end. */
  ghost predicate Handles<S>(env: Env<S>, c: Cluster<S>, c': Cluster<S>, v: Id, ev: Event) {
    && v in c.nodes && Enabled(c.nodes[v], c.net, ev)
    && c' == Cluster(c.nodes[v := React(env, c.nodes[v], ev).0], c.net + React(env, c.nodes[v], ev).1)
  }

  /** `v` handles an event, stops after the durable write `k`, and starts again from it. */
  ghost predicate Crashes<S>(env: Env<S>, c0: Config, c: Cluster<S>, c': Cluster<S>, v: Id, ev: Event, k: nat) {
    && v in c.nodes && Enabled(c.nodes[v], c.net, ev)
    && var r := React(env, c.nodes[v], ev).0;
       && |c.nodes[v].trail| <= k < |r.trail|
       && Restarted(env, c0, c, c', v, r.trail[k])
  }

  ghost predicate Restarted<S>(env: Env<S>, c0: Config, c: Cluster<S>, c': Cluster<S>, v: Id, d: Disk) {
    var n := Boot(env, v, c0, d);
    n.Some? && c' == Cluster(c.nodes[v := n.value], c.net)
  }

  /** `v` stops between two events. */
  ghost predicate Restarts<S>(env: Env<S>, c0: Config, c: Cluster<S>, c': Cluster<S>, v: Id) {
    v in c.nodes && Restarted(env, c0, c, c', v, c.nodes[v].disk)
  }

  ghost predicate Step<S>(env: Env<S>, c0: Config, c: Cluster<S>, c': Cluster<S>) {
    || (exists v, ev :: Handles(env, c, c', v, ev))
    || (exists v, ev, k :: Crashes(env, c0, c, c', v, ev, k))
    || (exists v :: Restarts(env, c0, c, c', v))
  }

  const BLANK := Disk(0, None, None, EMPTY)

  /** Every member starts on an empty disk. */
  ghost predicate Initial<S>(env: Env<S>, c0: Config, c: Cluster<S>) {
    && c.nodes.Keys == c0.current.Keys
    && (forall v :: v in c.nodes ==> Boot(env, v, c0, BLANK) == Some(c.nodes[v]))
    && c.net == {}
  }

  ghost predicate Run<S>(env: Env<S>, c0: Config, cs: seq<Cluster<S>>) {
    && cs != [] && Initial(env, c0, cs[0])
    && forall i :: 0 <= i < |cs| - 1 ==> Step(env, c0, cs[i], cs[i + 1])
  }
}
