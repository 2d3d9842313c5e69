/** Every run of a cluster follows a run of the protocol. */
module ClusterSimulation {
  import opened Basics
  import opened RaftTypes
  import opened Membership
  import opened LogStore
  import opened Node
  import opened Handlers
  import opened Coherence
  import opened Cluster
  import opened Simulation
  import opened FollowerSimulation
  import P = Protocol
  import Q = ProtocolSteps

  // ---------------------------------------------------------------- heartbeats

  lemma OfferMoves(c0: Config, a: P.System, images: Images, v: Id, k: nat, commit: nat)
    requires World(c0, a, images) && v in a.replicas && a.replicas[v].role == Leader
    requires k <= |a.replicas[v].log| && commit <= a.replicas[v].commit
    ensures Moves(c0, a, images, Q.MakeOffer(a, v, k, commit), v)
  {
    hide P.Inv;
    Q.MakeOfferKeeps(a, v, k, commit);
    MovesIf(c0, a, images, Q.MakeOffer(a, v, k, commit), v);
  }

  lemma LeaderTenure(c0: Config, a: P.System, images: Images, v: Id)
    requires World(c0, a, images) && v in a.replicas && a.replicas[v].role == Leader
    ensures var r := a.replicas[v]; r.term in a.tenures && a.tenures[r.term] == P.Tenure(v, r.log)
  {
    hide P.ReplicasOk, P.TenuresOk, P.GrantsOk, P.CandidatesOk, P.AcksOk, P.AcksKept, P.GrantsKept, P.Complete,
         P.OffersOk;
    assert P.RoleOk(a, v, a.replicas[v]);
  }

  /** A leader offers its whole log, from the position it believes the peer has reached. */
  lemma AppendOffered<S>(env: Env<S>, c0: Config, a: P.System, images: Images, v: Id, n: Node<S>, peer: Id)
    returns (a': P.System)
    requires World(c0, a, images) && NodeOk(env, c0, a, images, v, n) && n.role == Leader
    requires peer in c0.current && peer != v && Heartbeat(env, n, peer).SendAppend?
    ensures Moves(c0, a, images, a', v) && a'.replicas == a.replicas
    ensures exists o :: Offered(a', o, Heartbeat(env, n, peer).append)
  {
    hide World, Moves, ImageOk, Fold, Plain, Streaming, OwnImages;
    var r := a.replicas[v];
    var req := Heartbeat(env, n, peer).append;
    QueriesAgree(n.disk.log, r.log);
    assert Peered(c0, a, r, n, peer);
    a' := Q.MakeOffer(a, v, |r.log|, r.commit);
    OfferMoves(c0, a, images, v, |r.log|, r.commit);
    assert r.log[..|r.log|] == r.log;
    EntriesSent(n.disk.log, r.log, Next(n, peer));
    assert Offered(a', P.Offer(r.term, r.log, r.commit), req);
  }

  lemma EntriesSent(l: Log, h: seq<Entry>, next: nat)
    requires Represents(l, h) && l.base < next <= |h| + 1
    ensures EntriesFrom(l, next) == h[next - 1..] && TermAt(l, next - 1) == TermOf(h, next - 1)
  {
    QueriesAgree(l, h);
  }

  /** A leader offers its snapshot, chunk by chunk. */
  lemma ChunkOffered<S>(env: Env<S>, c0: Config, a: P.System, images: Images, v: Id, n: Node<S>, peer: Id)
    returns (a': P.System)
    requires World(c0, a, images) && NodeOk(env, c0, a, images, v, n) && n.role == Leader
    requires Heartbeat(env, n, peer).SendChunk?
    ensures var images' := images[(n.term, n.disk.log.base) := n.disk.log.image];
            && Moves(c0, a, images, a', v) && a'.replicas == a.replicas
            && ChunkOk(env, c0, a', images', Heartbeat(env, n, peer).chunk)
            && World(c0, a', images')
  {
    hide P.Inv, ImageOk, Fold, Plain, Streaming, Leading, Canvassing;
    var r := a.replicas[v];
    var base := n.disk.log.base;
    LeaderTenure(c0, a, images, v);
    a' := Q.MakeOffer(a, v, base, base);
    OfferMoves(c0, a, images, v, base, base);
    assert P.Offer(r.term, r.log[..base], base) in a'.offers;
  }

  lemma ImagesExtend<S>(env: Env<S>, c0: Config, a: P.System, images: Images, v: Id, n: Node<S>)
    requires NodeOk(env, c0, a, images, v, n) && n.role == Leader
    ensures var images' := images[(n.term, n.disk.log.base) := n.disk.log.image];
            Extends(images, images') && OwnImages(images', n.term, n.disk.log)
  {
    hide Stored, Streaming, Leading;
  }

  // ---------------------------------------------------------------- one event

  /** The messages of one reaction, in the state that the reaction leads to. */
  ghost predicate Sent<S>(env: Env<S>, c0: Config, a: P.System, images: Images, out: set<Message>) {
    forall m :: m in out ==> BodyOk(env, c0, a, images, m.to, m.body)
  }

  lemma ReceiveRelated<S(!new)>(env: Env<S>, c0: Config, a: P.System, images: Images, v: Id, n: Node<S>, body: Body)
    returns (a': P.System)
    requires Setting(env, c0) && World(c0, a, images) && NodeOk(env, c0, a, images, v, n)
    requires BodyOk(env, c0, a, images, v, body)
    ensures var r := Receive(env, n, body);
            Simulates(env, c0, a, images, a', v, n, r.0) && Sent(env, c0, a', images, r.1)
  {
    hide Setting, World, NodeOk, Simulates, ChunkOk, HandleVoteRequest, HandleVoteReply, HandleAppend, HandleAppendReply,
         HandleChunk, HandleChunkReply, P.Acked, P.HasGrant, Offered;
    match body
    case AskVote(req) => a' := VoteRequestSim(env, c0, a, images, v, n, req);
    case TellVote(reply) => a' := VoteReplySim(env, c0, a, images, v, n, reply);
    case AskAppend(req) => a' := AppendSim(env, c0, a, images, v, n, req);
    case TellAppend(reply) => a' := AppendReplySim(env, c0, a, images, v, n, reply);
    case AskChunk(req) => a' := ChunkSim(env, c0, a, images, v, n, req);
    case TellChunk(reply, next, done) => a' := ChunkReplySim(env, c0, a, images, v, n, reply, next, done);
  }

  lemma TimeoutRelated<S(!new)>(env: Env<S>, c0: Config, a: P.System, images: Images, v: Id, n: Node<S>)
    returns (a': P.System)
    requires Setting(env, c0) && World(c0, a, images) && NodeOk(env, c0, a, images, v, n)
    ensures Simulates(env, c0, a, images, a', v, n, StartElection(env, n))
    ensures Sent(env, c0, a', images, Solicitations(n))
  {
    hide Setting, World, NodeOk, Simulates, StartElection, Effective, MayCampaign, Solicit;
    a' := TimeoutSim(env, c0, a, images, v, n);
  }

  /** Every event but a heartbeat. */
  lemma ReactRelated<S(!new)>(env: Env<S>, c0: Config, a: P.System, images: Images, v: Id, n: Node<S>, ev: Event)
    returns (a': P.System)
    requires Setting(env, c0) && World(c0, a, images) && NodeOk(env, c0, a, images, v, n) && !ev.Beat?
    requires ev.Deliver? ==> BodyOk(env, c0, a, images, v, ev.body)
    requires ev.Submit? ==> IsPlain(ev.command)
    ensures var r := React(env, n, ev);
            Simulates(env, c0, a, images, a', v, n, r.0) && Sent(env, c0, a', images, r.1)
  {
    hide Setting, World, NodeOk, Simulates, BodyOk, StartElection, Solicitations, Receive, SubmitCommand, BeginRead;
    match ev
    case Timeout => a' := TimeoutRelated(env, c0, a, images, v, n);
    case Deliver(body) => a' := ReceiveRelated(env, c0, a, images, v, n, body);
    case Submit(command) => a' := SubmitSim(env, c0, a, images, v, n, command);
    case Read(query, token) => a' := ReadSim(env, c0, a, images, v, n, query, token);
  }

  // ---------------------------------------------------------------- one step

  lemma NodesPersist<S>(
    env: Env<S>, c0: Config, c: Cluster<S>, a: P.System, images: Images, a': P.System, v: Id, n': Node<S>)
    requires Related(env, c0, c, a, images) && Moves(c0, a, images, a', v)
    requires v in c.nodes && NodeOk(env, c0, a', images, v, n')
    ensures forall w :: w in c.nodes ==> NodeOk(env, c0, a', images, w, c.nodes[v := n'][w])
  {
    hide P.Inv, BodyOk, Stored, Live;
    forall w | w in c.nodes ensures NodeOk(env, c0, a', images, w, c.nodes[v := n'][w]) {
      if w != v {
        assert NodeOk(env, c0, a, images, w, c.nodes[w]);
        NodeFacts(env, c0, a, images, w, c.nodes[w]);
        NodePersists(env, c0, a, images, a', images, w, c.nodes[w]);
      }
    }
  }

  lemma NetPersists<S>(
    env: Env<S>, c0: Config, net: set<Message>, a: P.System, images: Images, a': P.System, images': Images)
    requires P.Later(a, a') && Extends(images, images')
    requires forall m :: m in net ==> BodyOk(env, c0, a, images, m.to, m.body)
    ensures forall m :: m in net ==> BodyOk(env, c0, a', images', m.to, m.body)
  {
    hide BodyOk;
    forall m | m in net ensures BodyOk(env, c0, a', images', m.to, m.body) {
      BodyPersists(env, c0, a, images, a', images', m.to, m.body);
    }
  }

  /** One node moved and perhaps sent something. */
  lemma OneMoved<S>(
    env: Env<S>, c0: Config, c: Cluster<S>, c': Cluster<S>, a: P.System, images: Images, a': P.System, v: Id,
    n': Node<S>, out: set<Message>)
    requires Related(env, c0, c, a, images) && Moves(c0, a, images, a', v) && v in c.nodes
    requires NodeOk(env, c0, a', images, v, n') && Sent(env, c0, a', images, out)
    requires c' == Cluster(c.nodes[v := n'], c.net + out)
    ensures Related(env, c0, c', a', images) && P.Later(a, a')
  {
    hide World, NodeOk, BodyOk;
    NodesPersist(env, c0, c, a, images, a', v, n');
    NetPersists(env, c0, c.net, a, images, a', images);
  }

  lemma RelatedNode<S>(env: Env<S>, c0: Config, c: Cluster<S>, a: P.System, images: Images, v: Id)
    requires Related(env, c0, c, a, images) && v in c.nodes
    ensures World(c0, a, images) && NodeOk(env, c0, a, images, v, c.nodes[v])
    ensures v in c0.current && a.replicas.Keys == c0.current.Keys
  {
    hide P.Inv, NodeOk, BodyOk;
  }

  lemma DeliveredOk<S>(env: Env<S>, c0: Config, c: Cluster<S>, a: P.System, images: Images, v: Id, ev: Event)
    requires Related(env, c0, c, a, images) && v in c.nodes && Enabled(c.nodes[v], c.net, ev)
    ensures ev.Deliver? ==> BodyOk(env, c0, a, images, v, ev.body)
    ensures ev.Submit? ==> IsPlain(ev.command)
  {
    hide World, BodyOk, Stored, Live, Effective;
    var n := c.nodes[v];
    assert NodeOk(env, c0, a, images, v, n);
  }

  lemma HandlesRelated<S(!new)>(
    env: Env<S>, c0: Config, c: Cluster<S>, c': Cluster<S>, a: P.System, images: Images, v: Id, ev: Event)
    returns (a': P.System)
    requires Setting(env, c0) && Related(env, c0, c, a, images) && Handles(env, c, c', v, ev) && !ev.Beat?
    ensures Related(env, c0, c', a', images) && P.Later(a, a')
  {
    hide Setting, Related, React, Enabled, Sent;
    RelatedNode(env, c0, c, a, images, v);
    DeliveredOk(env, c0, c, a, images, v, ev);
    a' := ReactRelated(env, c0, a, images, v, c.nodes[v], ev);
    var r := React(env, c.nodes[v], ev);
    SimulatesNode(env, c0, a, images, a', v, c.nodes[v], r.0);
    SimulatesMoves(env, c0, a, images, a', v, c.nodes[v], r.0);
    OneMoved(env, c0, c, c', a, images, a', v, r.0, r.1);
  }

  lemma SimulatesMoves<S>(
    env: Env<S>, c0: Config, a: P.System, images: Images, a': P.System, v: Id, n: Node<S>, n': Node<S>)
    requires Simulates(env, c0, a, images, a', v, n, n')
    ensures Moves(c0, a, images, a', v) && Written(env, c0, a, images, v, n.trail, n'.trail)
  {
  }

  lemma BeatSends<S>(env: Env<S>, c0: Config, c: Cluster<S>, c': Cluster<S>, v: Id, peer: Id)
    requires Handles(env, c, c', v, Beat(peer))
    ensures v in c.nodes && c.nodes[v].role == Leader && peer in Others(c.nodes[v])
    ensures c' == Cluster(c.nodes, c.net + Emit(peer, Heartbeat(env, c.nodes[v], peer)))
  {
    assert c.nodes[v := c.nodes[v]] == c.nodes;
  }

  lemma BeatRelated<S(!new)>(
    env: Env<S>, c0: Config, c: Cluster<S>, c': Cluster<S>, a: P.System, images: Images, v: Id, peer: Id)
    returns (a': P.System, images': Images)
    requires Setting(env, c0) && Related(env, c0, c, a, images) && Handles(env, c, c', v, Beat(peer))
    ensures Related(env, c0, c', a', images') && P.Later(a, a') && Extends(images, images')
    ensures images' == images || images' == images[(c.nodes[v].term, c.nodes[v].disk.log.base) := c.nodes[v].disk.log.image]
  {
    hide Setting, Related, Heartbeat, Handles, Others;
    BeatSends(env, c0, c, c', v, peer);
    var n := c.nodes[v];
    a', images' := a, images;
    match Heartbeat(env, n, peer)
    case SendNothing => assert c.net + {} == c.net;
    case SendAppend(req) => a' := AppendBeat(env, c0, c, c', a, images, v, peer);
    case SendChunk(req) =>
      a' := ChunkBeat(env, c0, c, c', a, images, v, peer);
      images' := images[(n.term, n.disk.log.base) := n.disk.log.image];
  }

  lemma AppendBeat<S(!new)>(
    env: Env<S>, c0: Config, c: Cluster<S>, c': Cluster<S>, a: P.System, images: Images, v: Id, peer: Id)
    returns (a': P.System)
    requires Setting(env, c0) && Related(env, c0, c, a, images)
    requires v in c.nodes && c.nodes[v].role == Leader && peer in Others(c.nodes[v])
    requires var out := Heartbeat(env, c.nodes[v], peer);
             out.SendAppend? && c' == Cluster(c.nodes, c.net + {Message(peer, AskAppend(out.append))})
    ensures Related(env, c0, c', a', images) && P.Later(a, a')
  {
    hide Lawful, SafeConfig, World, NodeOk, BodyOk, Moves, Heartbeat, Others, OwnImages;
    var n := c.nodes[v];
    RelatedNode(env, c0, c, a, images, v);
    PeerIsMember(env, c0, a, images, v, n, peer);
    a' := AppendOffered(env, c0, a, images, v, n, peer);
    MovesLater(c0, a, images, a', v);
    LeadersOwn(env, c0, c, a, images);
    Stood(env, c0, c, a, images, a', images);
    NetPersists(env, c0, c.net, a, images, a', images);
    AppendBodyOk(env, c0, a', images, peer, Heartbeat(env, n, peer).append);
  }

  lemma LeadersOwn<S>(env: Env<S>, c0: Config, c: Cluster<S>, a: P.System, images: Images)
    requires Related(env, c0, c, a, images)
    ensures forall w :: w in c.nodes && c.nodes[w].role == Leader ==>
              OwnImages(images, c.nodes[w].term, c.nodes[w].disk.log)
  {
    hide World, BodyOk, Stored, OwnImages, Leading, Canvassing, Streaming;
    forall w | w in c.nodes && c.nodes[w].role == Leader
      ensures OwnImages(images, c.nodes[w].term, c.nodes[w].disk.log)
    {
      assert NodeOk(env, c0, a, images, w, c.nodes[w]);
    }
  }

  lemma ChunkBeat<S(!new)>(
    env: Env<S>, c0: Config, c: Cluster<S>, c': Cluster<S>, a: P.System, images: Images, v: Id, peer: Id)
    returns (a': P.System)
    requires Setting(env, c0) && Related(env, c0, c, a, images)
    requires v in c.nodes && c.nodes[v].role == Leader
    requires var out := Heartbeat(env, c.nodes[v], peer);
             out.SendChunk? && c' == Cluster(c.nodes, c.net + {Message(peer, AskChunk(out.chunk))})
    ensures var images' := images[(c.nodes[v].term, c.nodes[v].disk.log.base) := c.nodes[v].disk.log.image];
            Related(env, c0, c', a', images') && P.Later(a, a') && Extends(images, images')
  {
    hide Setting, World, NodeOk, BodyOk, ChunkOk, Moves, Heartbeat, OwnImages, Extends;
    var n := c.nodes[v];
    var images' := images[(n.term, n.disk.log.base) := n.disk.log.image];
    RelatedNode(env, c0, c, a, images, v);
    a' := ChunkOffered(env, c0, a, images, v, n, peer);
    MovesLater(c0, a, images, a', v);
    ImagesExtend(env, c0, a, images, v, n);
    ImagesApart(env, c0, c, a, images, v);
    Stood(env, c0, c, a, images, a', images');
    NetPersists(env, c0, c.net, a, images, a', images');
    ChunkBodyOk(env, c0, a', images', peer, Heartbeat(env, n, peer).chunk);
  }

  lemma AppendBodyOk<S>(env: Env<S>, c0: Config, a: P.System, images: Images, to: Id, req: AppendRequest)
    requires exists o :: Offered(a, o, req)
    ensures BodyOk(env, c0, a, images, to, AskAppend(req))
  {
  }

  lemma ChunkBodyOk<S>(env: Env<S>, c0: Config, a: P.System, images: Images, to: Id, req: Chunk)
    requires ChunkOk(env, c0, a, images, req)
    ensures BodyOk(env, c0, a, images, to, AskChunk(req))
  {
    hide ChunkOk;
  }

  lemma PeerIsMember<S>(env: Env<S>, c0: Config, a: P.System, images: Images, v: Id, n: Node<S>, peer: Id)
    requires NodeOk(env, c0, a, images, v, n) && !IsJoint(c0)
    ensures peer in Others(n) ==> peer in c0.current && peer != v
  {
    hide Stored, Streaming, Leading, Canvassing, ConfigurationAt;
    FixedConfiguration(env, c0, a.replicas[v], n, LastIndex(n.disk.log));
  }

  /** Nobody moved; there are more messages and images. */
  lemma Stood<S>(
    env: Env<S>, c0: Config, c: Cluster<S>, a: P.System, images: Images, a': P.System, images': Images)
    requires Related(env, c0, c, a, images) && P.Later(a, a') && Extends(images, images') && a'.replicas == a.replicas
    requires forall w :: w in c.nodes && c.nodes[w].role == Leader ==>
               OwnImages(images', c.nodes[w].term, c.nodes[w].disk.log)
    ensures forall w :: w in c.nodes ==> NodeOk(env, c0, a', images', w, c.nodes[w])
  {
    hide World, BodyOk, NodeOk, OwnImages;
    forall w | w in c.nodes ensures NodeOk(env, c0, a', images', w, c.nodes[w]) {
      RelatedNode(env, c0, c, a, images, w);
      NodeFacts(env, c0, a, images, w, c.nodes[w]);
      NodePersists(env, c0, a, images, a', images', w, c.nodes[w]);
    }
  }

  /** Leaders of different nodes lead different terms, so one's new image is no other's. */
  lemma ImagesApart<S>(env: Env<S>, c0: Config, c: Cluster<S>, a: P.System, images: Images, v: Id)
    requires Related(env, c0, c, a, images) && v in c.nodes && c.nodes[v].role == Leader
    ensures var images' := images[(c.nodes[v].term, c.nodes[v].disk.log.base) := c.nodes[v].disk.log.image];
            forall w :: w in c.nodes && c.nodes[w].role == Leader ==>
              OwnImages(images', c.nodes[w].term, c.nodes[w].disk.log)
  {
    hide World, BodyOk, Stored, Live, Leading, Canvassing, Streaming;
    var n := c.nodes[v];
    var images' := images[(n.term, n.disk.log.base) := n.disk.log.image];
    RelatedNode(env, c0, c, a, images, v);
    NodeFacts(env, c0, a, images, v, n);
    LeaderTenure(c0, a, images, v);
    forall w | w in c.nodes && c.nodes[w].role == Leader
      ensures OwnImages(images', c.nodes[w].term, c.nodes[w].disk.log)
    {
      RelatedNode(env, c0, c, a, images, w);
      NodeFacts(env, c0, a, images, w, c.nodes[w]);
      LeaderTenure(c0, a, images, w);
      assert OwnImages(images, c.nodes[w].term, c.nodes[w].disk.log);
    }
  }

  lemma RestartedRelated<S(!new)>(
    env: Env<S>, c0: Config, c: Cluster<S>, c': Cluster<S>, a: P.System, images: Images, v: Id, d: Disk)
    returns (a': P.System)
    requires Setting(env, c0) && Related(env, c0, c, a, images) && v in c.nodes
    requires Restarted(env, c0, c, c', v, d) && Bootable(env, c0, a, images, v, d)
    ensures Related(env, c0, c', a', images) && P.Later(a, a')
  {
    hide Setting, Related, Moves, NodeOk, Boot, World, Bootable, BodyOk;
    RelatedNode(env, c0, c, a, images, v);
    a' := BootSim(env, c0, a, images, v, d);
    assert c.net + {} == c.net;
    OneMoved(env, c0, c, c', a, images, a', v, Boot(env, v, c0, d).value, {});
  }

  lemma CrashRelated<S(!new)>(
    env: Env<S>, c0: Config, c: Cluster<S>, c': Cluster<S>, a: P.System, images: Images, v: Id, ev: Event, k: nat)
    returns (a': P.System)
    requires Setting(env, c0) && Related(env, c0, c, a, images) && Crashes(env, c0, c, c', v, ev, k)
    ensures Related(env, c0, c', a', images) && P.Later(a, a')
  {
    hide Setting, Related, React, Enabled, Sent, Restarted, Simulates, Bootable;
    RelatedNode(env, c0, c, a, images, v);
    DeliveredOk(env, c0, c, a, images, v, ev);
    BeatWritesNothing(env, c.nodes[v], ev);
    var b := ReactRelated(env, c0, a, images, v, c.nodes[v], ev);
    var r := React(env, c.nodes[v], ev).0;
    SimulatesMoves(env, c0, a, images, b, v, c.nodes[v], r);
    a' := RestartedRelated(env, c0, c, c', a, images, v, r.trail[k]);
  }

  lemma BeatWritesNothing<S>(env: Env<S>, n: Node<S>, ev: Event)
    ensures ev.Beat? ==> React(env, n, ev).0 == n
  {
  }

  lemma RestartRelated<S(!new)>(
    env: Env<S>, c0: Config, c: Cluster<S>, c': Cluster<S>, a: P.System, images: Images, v: Id)
    returns (a': P.System)
    requires Setting(env, c0) && Related(env, c0, c, a, images) && Restarts(env, c0, c, c', v)
    ensures Related(env, c0, c', a', images) && P.Later(a, a')
  {
    hide Setting, Related, Restarted, Stored, Live, Office;
    RelatedNode(env, c0, c, a, images, v);
    Stays(c0, a, images, v);
    assert Bootable(env, c0, a, images, v, c.nodes[v].disk);
    a' := RestartedRelated(env, c0, c, c', a, images, v, c.nodes[v].disk);
  }

  ghost predicate HoldsImage<S>(n: Node<S>, key: (nat, nat), image: Bytes) {
    n.role == Leader && n.term == key.0 && n.disk.log.base == key.1 && n.disk.log.image == image
  }

  /** Images grow only by snapshots that a leader holds at this moment. */
  ghost predicate Photographed<S>(c: Cluster<S>, images: Images, images': Images) {
    && Extends(images, images')
    && forall k :: k in images' && k !in images ==> exists v :: v in c.nodes && HoldsImage(c.nodes[v], k, images'[k])
  }

  lemma PhotographedOne<S>(c: Cluster<S>, images: Images, v: Id)
    requires v in c.nodes && c.nodes[v].role == Leader
    requires Extends(images, images[(c.nodes[v].term, c.nodes[v].disk.log.base) := c.nodes[v].disk.log.image])
    ensures Photographed(c, images, images[(c.nodes[v].term, c.nodes[v].disk.log.base) := c.nodes[v].disk.log.image])
  {
    var n := c.nodes[v];
    var images' := images[(n.term, n.disk.log.base) := n.disk.log.image];
    forall k | k in images' && k !in images ensures exists w :: w in c.nodes && HoldsImage(c.nodes[w], k, images'[k]) {
      assert HoldsImage(c.nodes[v], k, images'[k]);
    }
  }

  /** Every step of a cluster is matched by steps of the protocol. */
  lemma StepRelated<S(!new)>(env: Env<S>, c0: Config, c: Cluster<S>, c': Cluster<S>, a: P.System, images: Images)
    returns (a': P.System, images': Images)
    requires Setting(env, c0) && Related(env, c0, c, a, images) && Step(env, c0, c, c')
    ensures Related(env, c0, c', a', images') && P.Later(a, a') && Photographed(c, images, images')
  {
    hide Setting, Related, Handles, Crashes, Restarts, HoldsImage;
    images' := images;
    if v, ev :| Handles(env, c, c', v, ev) {
      if ev.Beat? {
        BeatSends(env, c0, c, c', v, ev.peer);
        a', images' := BeatRelated(env, c0, c, c', a, images, v, ev.peer);
        if images' != images {
          PhotographedOne(c, images, v);
        }
      } else {
        a' := HandlesRelated(env, c0, c, c', a, images, v, ev);
      }
    } else if v, ev, k :| Crashes(env, c0, c, c', v, ev, k) {
      a' := CrashRelated(env, c0, c, c', a, images, v, ev, k);
    } else {
      var v :| Restarts(env, c0, c, c', v);
      a' := RestartRelated(env, c0, c, c', a, images, v);
    }
  }

  /** The snapshot that a leader holds may be noted at any moment. */
  lemma Photograph<S(!new)>(env: Env<S>, c0: Config, c: Cluster<S>, a: P.System, images: Images, v: Id)
    requires Related(env, c0, c, a, images) && v in c.nodes && c.nodes[v].role == Leader
    ensures var images' := images[(c.nodes[v].term, c.nodes[v].disk.log.base) := c.nodes[v].disk.log.image];
            Related(env, c0, c, a, images') && Photographed(c, images, images')
  {
    hide NodeOk, BodyOk, OwnImages, Extends, Photographed, P.Inv;
    var n := c.nodes[v];
    var images' := images[(n.term, n.disk.log.base) := n.disk.log.image];
    RelatedNode(env, c0, c, a, images, v);
    NodeFacts(env, c0, a, images, v, n);
    LeaderTenure(c0, a, images, v);
    ImagesExtend(env, c0, a, images, v, n);
    ImagesApart(env, c0, c, a, images, v);
    SelfLater(a);
    Stood(env, c0, c, a, images, a, images');
    NetPersists(env, c0, c.net, a, images, a, images');
    PhotographedOne(c, images, v);
  }

  lemma SelfLater(a: P.System)
    ensures P.Later(a, a)
  {
  }

  /** The images hold the snapshot of this node, if it leads. */
  ghost predicate Pictured<S>(n: Node<S>, images: Images) {
    n.role == Leader ==>
      (n.term, n.disk.log.base) in images && images[(n.term, n.disk.log.base)] == n.disk.log.image
  }

  lemma PicturedMore<S>(n: Node<S>, images: Images, images': Images)
    requires Pictured(n, images) && Extends(images, images')
    ensures Pictured(n, images')
  {
  }

  lemma PhotographedTrans<S>(c: Cluster<S>, a: Images, b: Images, d: Images)
    requires Photographed(c, a, b) && Photographed(c, b, d)
    ensures Photographed(c, a, d)
  {
    hide HoldsImage;
    forall k | k in d && k !in a ensures exists v :: v in c.nodes && HoldsImage(c.nodes[v], k, d[k]) {
      if k in b {
        var v :| v in c.nodes && HoldsImage(c.nodes[v], k, b[k]);
        assert d[k] == b[k];
      }
    }
  }

  lemma {:induction false} PhotographAll<S(!new)>(
    env: Env<S>, c0: Config, c: Cluster<S>, a: P.System, images: Images, vs: set<Id>)
    returns (images': Images)
    requires Related(env, c0, c, a, images) && vs <= c.nodes.Keys
    ensures Related(env, c0, c, a, images') && Photographed(c, images, images')
    ensures forall v :: v in vs ==> Pictured(c.nodes[v], images')
    decreases |vs|
  {
    hide Related, HoldsImage;
    images' := images;
    if vs != {} {
      var v :| v in vs;
      var rest := PhotographAll(env, c0, c, a, images, vs - {v});
      images' := rest;
      if c.nodes[v].role == Leader {
        images' := rest[(c.nodes[v].term, c.nodes[v].disk.log.base) := c.nodes[v].disk.log.image];
        Photograph(env, c0, c, a, rest, v);
        PhotographedTrans(c, images, rest, images');
      }
      forall w | w in vs ensures Pictured(c.nodes[w], images') {
        if w != v {
          PicturedMore(c.nodes[w], rest, images');
        }
      }
    }
  }

  // ---------------------------------------------------------------- the start

  const FRESH := P.Replica(0, None, Follower, [], 0)

  function Origin(c0: Config): P.System {
    P.System(Voters(c0.current), map v | v in c0.current :: FRESH, map[], {}, {}, {}, {})
  }

  lemma OriginOk(c0: Config)
    ensures World(c0, Origin(c0), map[])
  {
  }

  lemma InitialRelated<S(!new)>(env: Env<S>, c0: Config, c: Cluster<S>)
    requires Setting(env, c0) && Initial(env, c0, c)
    ensures Related(env, c0, c, Origin(c0), map[])
  {
    hide World, Boot, Setting;
    OriginOk(c0);
    forall v | v in c.nodes ensures NodeOk(env, c0, Origin(c0), map[], v, c.nodes[v]) {
      assert Stored(env, c0, FRESH, BLANK);
      BootsAs(env, c0, FRESH, BLANK, v);
    }
  }
}
