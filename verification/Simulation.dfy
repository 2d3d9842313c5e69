/**
 * Every node of a cluster does what the protocol allows.
 *
 * A node is related to a replica of `Protocol` that holds the node's whole log; each handler is
 * matched by a few protocol steps, and so is every prefix of its durable writes.
 */
module Simulation {
  import opened Basics
  import opened RaftTypes
  import opened Membership
  import opened LogStore
  import opened Node
  import opened Handlers
  import opened Coherence
  import opened Cluster
  import P = Protocol
  import Q = ProtocolSteps

  /** Snapshot bytes by leader term and boundary. */
  type Images = map<(nat, nat), Bytes>

  // ---------------------------------------------------------------- the relation

  ghost predicate Setting<S(!new)>(env: Env<S>, c0: Config) {
    Lawful(env.app) && SafeConfig(c0) && !IsJoint(c0)
  }

  ghost predicate Plain(log: seq<Entry>) {
    forall i :: 0 <= i < |log| ==> IsPlain(log[i].command)
  }

  ghost predicate World(c0: Config, a: P.System, images: Images) {
    && P.Inv(a) && a.voters == Voters(c0.current) && a.replicas.Keys == c0.current.Keys
    && (forall t :: t in a.tenures ==> Plain(a.tenures[t].log))
    && (forall k :: k in images ==> k.0 in a.tenures)
  }

  /** What a disk holds of a replica. */
  ghost predicate Stored<S>(env: Env<S>, c0: Config, r: P.Replica, d: Disk) {
    && d.term == r.term && d.vote == r.vote && d.admission == None
    && Represents(d.log, r.log) && d.log.base <= r.commit <= |r.log| && Plain(r.log)
    && (d.log.base > 0 ==> ImageOk(env.app, c0, Fold(env.app, r.log[..d.log.base]), d.log.image))
  }

  /** What a running node holds of a replica. */
  ghost predicate Live<S>(env: Env<S>, c0: Config, r: P.Replica, n: Node<S>) {
    && n.term == r.term && n.vote == r.vote && n.role == r.role
    && n.commit == r.commit && n.applied == r.commit
    && n.config == c0 && n.snapConfig == c0
    && r.commit <= |r.log| && n.machine == Fold(env.app, r.log[..r.commit])
    && n.joiningFrom == None && n.joiners == map[]
  }

  ghost predicate Peered<S>(c0: Config, a: P.System, r: P.Replica, n: Node<S>, p: Id) {
    && (Matched(n, p) == 0 || P.Acked(a, p, r.term, Matched(n, p)))
    && 1 <= Next(n, p) <= |r.log| + 1
  }

  ghost predicate Peers<S>(c0: Config, a: P.System, v: Id, r: P.Replica, n: Node<S>) {
    forall p :: p in c0.current && p != v ==> Peered(c0, a, r, n, p)
  }

  ghost predicate Leading<S>(c0: Config, a: P.System, v: Id, r: P.Replica, n: Node<S>) {
    P.Acked(a, v, r.term, |r.log|) && Peers(c0, a, v, r, n)
  }

  ghost predicate Canvassing<S>(c0: Config, a: P.System, v: Id, r: P.Replica, n: Node<S>) {
    forall p :: p in n.votes ==> P.HasGrant(a, p, r.term, v)
  }

  /** A snapshot that the leader of `t` has offered: its boundary is committed. */
  ghost predicate Vouched<S>(env: Env<S>, c0: Config, a: P.System, images: Images, t: nat, i: nat, lastTerm: nat) {
    && (t, i) in images && t in a.tenures && i <= |a.tenures[t].log|
    && var p := a.tenures[t].log[..i];
       && lastTerm == TermOf(p, i)
       && P.Offer(t, p, i) in a.offers
       && ImageOk(env.app, c0, Fold(env.app, p), images[(t, i)])
  }

  ghost predicate Streaming<S>(env: Env<S>, c0: Config, a: P.System, images: Images, p: Pending) {
    && Vouched(env, c0, a, images, p.term, p.lastIndex, p.lastTerm)
    && p.offset == |p.data| && p.data <= images[(p.term, p.lastIndex)]
  }

  /** The images of a leader's own term are its past snapshots. */
  ghost predicate OwnImages(images: Images, t: nat, l: Log) {
    forall i :: (t, i) in images ==> i <= l.base && (i == l.base ==> images[(t, i)] == l.image)
  }

  ghost predicate Office<S>(
    env: Env<S>, c0: Config, a: P.System, images: Images, v: Id, r: P.Replica, n: Node<S>)
  {
    && n.me == v
    && (n.role == Leader ==> Leading(c0, a, v, r, n) && OwnImages(images, r.term, n.disk.log))
    && (n.role == Candidate ==> Canvassing(c0, a, v, r, n))
    && (n.pending.Some? ==> Streaming(env, c0, a, images, n.pending.value))
  }

  ghost predicate NodeOk<S>(env: Env<S>, c0: Config, a: P.System, images: Images, v: Id, n: Node<S>) {
    && v in a.replicas
    && Stored(env, c0, a.replicas[v], n.disk)
    && Live(env, c0, a.replicas[v], n)
    && Office(env, c0, a, images, v, a.replicas[v], n)
  }

  // ---------------------------------------------------------------- messages

  ghost predicate Offered(a: P.System, o: P.Offer, req: AppendRequest) {
    && o in a.offers && o.term == req.term && o.commit == req.commit
    && req.prevIndex <= |o.log| && o.log[req.prevIndex..] == req.entries
    && req.prevTerm == TermOf(o.log, req.prevIndex)
  }

  ghost predicate ChunkOk<S>(env: Env<S>, c0: Config, a: P.System, images: Images, req: Chunk) {
    && Vouched(env, c0, a, images, req.term, req.lastIndex, req.lastTerm)
    && req.term in a.tenures && a.tenures[req.term].leader == req.leader
    && var image := images[(req.term, req.lastIndex)];
       && req.offset + |req.data| <= |image|
       && req.data == image[req.offset..req.offset + |req.data|]
       && (req.done ==> req.offset + |req.data| == |image|)
  }

  ghost predicate BodyOk<S>(env: Env<S>, c0: Config, a: P.System, images: Images, to: Id, body: Body) {
    match body
    case AskVote(req) => P.Ballot(req.term, req.candidate, req.lastIndex, req.lastTerm) in a.ballots
    case TellVote(reply) => reply.granted ==> P.HasGrant(a, reply.peer, reply.term, to)
    case AskAppend(req) => exists o :: Offered(a, o, req)
    case TellAppend(reply) => reply.success ==> P.Acked(a, reply.peer, reply.term, reply.matchIndex)
    case AskChunk(req) => ChunkOk(env, c0, a, images, req)
    case TellChunk(reply, _, _) =>
      reply.success && reply.done ==> P.Acked(a, reply.peer, reply.term, reply.lastIndex)
  }

  ghost predicate Related<S>(env: Env<S>, c0: Config, c: Cluster<S>, a: P.System, images: Images) {
    && World(c0, a, images)
    && c.nodes.Keys == c0.current.Keys
    && (forall v :: v in c.nodes ==> NodeOk(env, c0, a, images, v, c.nodes[v]))
    && (forall m :: m in c.net ==> BodyOk(env, c0, a, images, m.to, m.body))
  }

  // ---------------------------------------------------------------- steps of one replica

  /** A run of protocol steps in which only `v` moved. */
  ghost predicate Moves(c0: Config, a: P.System, images: Images, a': P.System, v: Id) {
    && World(c0, a', images) && P.Later(a, a')
    && forall w :: w in a.replicas && w != v ==> w in a'.replicas && a'.replicas[w] == a.replicas[w]
  }

  lemma MovesTrans(c0: Config, a: P.System, images: Images, b: P.System, c: P.System, v: Id)
    requires Moves(c0, a, images, b, v) && Moves(c0, b, images, c, v)
    ensures Moves(c0, a, images, c, v)
  {
    hide World;
    P.LaterTrans(a, b, c);
  }

  /** The protocol can reach a state in which `v` owns the disk `d`. */
  ghost predicate Bootable<S>(env: Env<S>, c0: Config, a: P.System, images: Images, v: Id, d: Disk) {
    exists b :: Moves(c0, a, images, b, v) && v in b.replicas && Stored(env, c0, b.replicas[v], d)
  }

  /** Every durable write since `trail` left a disk to start from. */
  ghost predicate Written<S>(
    env: Env<S>, c0: Config, a: P.System, images: Images, v: Id, trail: seq<Disk>, trail': seq<Disk>)
  {
    && trail <= trail'
    && forall k :: |trail| <= k < |trail'| ==> Bootable(env, c0, a, images, v, trail'[k])
  }

  lemma WrittenTrans<S>(
    env: Env<S>, c0: Config, a: P.System, images: Images, b: P.System, v: Id,
    x: seq<Disk>, y: seq<Disk>, z: seq<Disk>)
    requires Moves(c0, a, images, b, v)
    requires Written(env, c0, a, images, v, x, y) && Written(env, c0, b, images, v, y, z)
    ensures Written(env, c0, a, images, v, x, z)
  {
    hide Moves, Stored;
    forall k | |x| <= k < |z| ensures Bootable(env, c0, a, images, v, z[k]) {
      if k < |y| {
        assert z[k] == y[k];
      } else {
        var c :| Moves(c0, b, images, c, v) && v in c.replicas && Stored(env, c0, c.replicas[v], z[k]);
        MovesTrans(c0, a, images, b, c, v);
      }
    }
  }

  /** One write that leaves the disk of a reached state. */
  lemma WrittenOne<S>(
    env: Env<S>, c0: Config, a: P.System, images: Images, b: P.System, v: Id, trail: seq<Disk>, d: Disk)
    requires Moves(c0, a, images, b, v) && v in b.replicas && Stored(env, c0, b.replicas[v], d)
    ensures Written(env, c0, a, images, v, trail, trail + [d])
  {
    hide Moves, Stored;
    assert Bootable(env, c0, a, images, v, d);
  }

  /** What a handler's simulation establishes. */
  ghost predicate Simulates<S>(
    env: Env<S>, c0: Config, a: P.System, images: Images, a': P.System, v: Id, n: Node<S>, n': Node<S>)
  {
    && Moves(c0, a, images, a', v)
    && NodeOk(env, c0, a', images, v, n')
    && Written(env, c0, a, images, v, n.trail, n'.trail)
  }

  lemma SimulatesTrans<S>(
    env: Env<S>, c0: Config, a: P.System, images: Images, b: P.System, c: P.System, v: Id,
    x: Node<S>, y: Node<S>, z: Node<S>)
    requires Simulates(env, c0, a, images, b, v, x, y) && Simulates(env, c0, b, images, c, v, y, z)
    ensures Simulates(env, c0, a, images, c, v, x, z)
  {
    hide Moves, NodeOk, Written;
    MovesTrans(c0, a, images, b, c, v);
    WrittenTrans(env, c0, a, images, b, v, x.trail, y.trail, z.trail);
  }

  // ---------------------------------------------------------------- what persists

  lemma GrantPersists(a: P.System, a': P.System, v: Id, t: nat, c: Id)
    requires P.Later(a, a') && P.HasGrant(a, v, t, c)
    ensures P.HasGrant(a', v, t, c)
  {
    var log :| P.Grant(v, t, c, log) in a.grants;
    assert P.Grant(v, t, c, log) in a'.grants;
  }

  lemma VouchedPersists<S>(
    env: Env<S>, c0: Config, a: P.System, images: Images, a': P.System, images': Images, t: nat, i: nat, lastTerm: nat)
    requires P.Later(a, a') && Vouched(env, c0, a, images, t, i, lastTerm)
    requires forall k :: k in images ==> k in images' && images'[k] == images[k]
    ensures Vouched(env, c0, a', images', t, i, lastTerm) && (t, i) in images && images'[(t, i)] == images[(t, i)]
  {
    hide ImageOk, Fold;
    assert a'.tenures[t].log[..i] == a.tenures[t].log[..i];
  }

  ghost predicate Extends(images: Images, images': Images) {
    forall k :: k in images ==> k in images' && images'[k] == images[k]
  }

  lemma BodyPersists<S>(
    env: Env<S>, c0: Config, a: P.System, images: Images, a': P.System, images': Images, to: Id, body: Body)
    requires P.Later(a, a') && Extends(images, images') && BodyOk(env, c0, a, images, to, body)
    ensures BodyOk(env, c0, a', images', to, body)
  {
    hide Vouched;
    match body
    case TellVote(reply) =>
      if reply.granted {
        GrantPersists(a, a', reply.peer, reply.term, to);
      }
    case AskAppend(req) =>
      var o :| Offered(a, o, req);
      assert Offered(a', o, req);
    case AskChunk(req) =>
      VouchedPersists(env, c0, a, images, a', images', req.term, req.lastIndex, req.lastTerm);
    case _ =>
  }

  /** A node whose replica did not move, among more messages and more images. */
  lemma NodePersists<S>(
    env: Env<S>, c0: Config, a: P.System, images: Images, a': P.System, images': Images, w: Id, n: Node<S>)
    requires P.Later(a, a') && Extends(images, images') && NodeOk(env, c0, a, images, w, n)
    requires w in a'.replicas && a'.replicas[w] == a.replicas[w]
    requires n.role == Leader ==> OwnImages(images', n.term, n.disk.log)
    ensures NodeOk(env, c0, a', images', w, n)
  {
    hide Vouched, Stored;
    var r := a.replicas[w];
    if n.role == Leader {
      LeadingPersists(c0, a, a', w, r, n);
    }
    if n.role == Candidate {
      forall p | p in n.votes ensures P.HasGrant(a', p, r.term, w) {
        GrantPersists(a, a', p, r.term, w);
      }
    }
    if n.pending.Some? {
      var p := n.pending.value;
      VouchedPersists(env, c0, a, images, a', images', p.term, p.lastIndex, p.lastTerm);
    }
  }

  lemma LeadingPersists<S>(c0: Config, a: P.System, a': P.System, v: Id, r: P.Replica, n: Node<S>)
    requires P.Later(a, a') && Leading(c0, a, v, r, n)
    ensures Leading(c0, a', v, r, n)
  {
    hide P.Acked, Matched, Next;
    P.AckedPersists(a, a', v, r.term, |r.log|);
    forall p | p in c0.current && p != v ensures Peered(c0, a', r, n, p) {
      assert Peered(c0, a, r, n, p);
      if Matched(n, p) != 0 {
        P.AckedPersists(a, a', p, r.term, Matched(n, p));
      }
    }
  }

  // ---------------------------------------------------------------- terms and votes

  lemma MovesIf(c0: Config, a: P.System, images: Images, a': P.System, v: Id)
    requires World(c0, a, images) && P.Inv(a') && P.Later(a, a')
    requires forall t :: t in a'.tenures ==> Plain(a'.tenures[t].log)
    requires forall w :: w in a.replicas && w != v ==> w in a'.replicas && a'.replicas[w] == a.replicas[w]
    ensures Moves(c0, a, images, a', v)
  {
    hide P.Inv;
  }

  lemma Stays(c0: Config, a: P.System, images: Images, v: Id)
    requires World(c0, a, images)
    ensures Moves(c0, a, images, a, v)
  {
    hide P.Inv;
  }

  lemma RaiseMoves(c0: Config, a: P.System, images: Images, v: Id, t: nat, vote: Option<Id>)
    requires World(c0, a, images) && v in a.replicas && a.replicas[v].term < t
    ensures Moves(c0, a, images, Q.RaiseTerm(a, v, t, vote), v)
  {
    hide P.Inv;
    Q.RaiseTermKeeps(a, v, t, vote);
    MovesIf(c0, a, images, Q.RaiseTerm(a, v, t, vote), v);
  }

  /** A follower's office: nothing but an unfinished snapshot. */
  lemma FollowerOffice<S>(env: Env<S>, c0: Config, a: P.System, images: Images, v: Id, n: Node<S>, n': Node<S>,
                          a': P.System)
    requires NodeOk(env, c0, a, images, v, n) && P.Later(a, a') && v in a'.replicas
    requires n'.role == Follower && n'.me == v && (n'.pending == None || n'.pending == n.pending)
    requires Stored(env, c0, a'.replicas[v], n'.disk) && Live(env, c0, a'.replicas[v], n')
    ensures NodeOk(env, c0, a', images, v, n')
  {
    hide Vouched, Stored, Live, Leading, Canvassing;
    if n'.pending.Some? {
      var p := n'.pending.value;
      VouchedPersists(env, c0, a, images, a', images, p.term, p.lastIndex, p.lastTerm);
    }
  }

  lemma StepDownSim<S>(env: Env<S>, c0: Config, a: P.System, images: Images, v: Id, n: Node<S>, t: nat)
    returns (a': P.System)
    requires World(c0, a, images) && NodeOk(env, c0, a, images, v, n) && n.term < t
    ensures Simulates(env, c0, a, images, a', v, n, StepDown(n, t))
  {
    hide World, Moves, ImageOk, Fold, Plain;
    var b := Q.RaiseTerm(a, v, t, n.vote);
    a' := Q.RaiseTerm(a, v, t, None);
    RaiseMoves(c0, a, images, v, t, n.vote);
    RaiseMoves(c0, a, images, v, t, None);
    var d1 := n.disk.(term := t);
    var d2 := d1.(vote := None);
    WrittenOne(env, c0, a, images, b, v, n.trail, d1);
    WrittenOne(env, c0, a, images, a', v, n.trail + [d1], d2);
    WrittenAppend(env, c0, a, images, v, n.trail, d1, d2);
    assert P.Later(a, a') by { assert Moves(c0, a, images, a', v); MovesLater(c0, a, images, a', v); }
    FollowerOffice(env, c0, a, images, v, n, StepDown(n, t), a');
  }

  lemma MovesLater(c0: Config, a: P.System, images: Images, a': P.System, v: Id)
    requires Moves(c0, a, images, a', v)
    ensures P.Later(a, a') && World(c0, a', images)
  {
  }

  lemma WrittenAppend<S>(
    env: Env<S>, c0: Config, a: P.System, images: Images, v: Id, trail: seq<Disk>, d1: Disk, d2: Disk)
    requires Written(env, c0, a, images, v, trail, trail + [d1])
    requires Written(env, c0, a, images, v, trail + [d1], trail + [d1] + [d2])
    ensures Written(env, c0, a, images, v, trail, trail + [d1] + [d2])
  {
    hide Bootable;
    var x := trail + [d1];
    var z := x + [d2];
    forall k | |trail| <= k < |z| ensures Bootable(env, c0, a, images, v, z[k]) {
      assert k < |x| ==> z[k] == x[k];
    }
  }

  // ---------------------------------------------------------------- voting

  lemma {:induction false} PlainFold(c0: Config, h: seq<Entry>)
    requires Plain(h)
    ensures FoldConfig(c0, h) == c0
  {
    if h != [] {
      PlainFold(c0, h[..|h| - 1]);
      assert IsPlain(h[|h| - 1].command);
    }
  }

  /** With a fixed membership every index has the initial configuration. */
  lemma FixedConfiguration<S>(env: Env<S>, c0: Config, r: P.Replica, n: Node<S>, index: nat)
    requires Stored(env, c0, r, n.disk) && n.snapConfig == c0
    ensures ConfigurationAt(n, index) == c0
  {
    hide ImageOk, Fold, FoldConfig;
    var l := n.disk.log;
    var es := l.entries[..Clamp(index - l.base, |l.entries|)];
    forall i | 0 <= i < |es| ensures IsPlain(es[i].command) {
      assert es[i] == r.log[l.base + i];
    }
    PlainFold(c0, es);
  }

  ghost predicate SameDesk<S>(n: Node<S>, n': Node<S>) {
    && n'.me == n.me && n'.role == n.role && n'.votes == n.votes
    && n'.matched == n.matched && n'.next == n.next && n'.pending == n.pending
  }

  /** An office keeps its meaning while term and log of the replica stay. */
  lemma OfficePersists<S>(
    env: Env<S>, c0: Config, a: P.System, images: Images, a': P.System, v: Id,
    r: P.Replica, r': P.Replica, n: Node<S>, n': Node<S>)
    requires P.Later(a, a') && Office(env, c0, a, images, v, r, n) && SameDesk(n, n')
    requires r'.term == r.term && r'.log == r.log
    requires n.role == Leader ==> OwnImages(images, r.term, n'.disk.log)
    ensures Office(env, c0, a', images, v, r', n')
  {
    hide Vouched;
    if n.role == Leader {
      LeadingPersists(c0, a, a', v, r, n);
      LeadingSame(c0, a', v, r, r', n, n');
    }
    if n.role == Candidate {
      forall p | p in n.votes ensures P.HasGrant(a', p, r.term, v) {
        GrantPersists(a, a', p, r.term, v);
      }
    }
    if n.pending.Some? {
      var p := n.pending.value;
      VouchedPersists(env, c0, a, images, a', images, p.term, p.lastIndex, p.lastTerm);
    }
  }

  lemma LeadingSame<S>(c0: Config, a: P.System, v: Id, r: P.Replica, r': P.Replica, n: Node<S>, n': Node<S>)
    requires Leading(c0, a, v, r, n) && n'.matched == n.matched && n'.next == n.next
    requires r'.term == r.term && r'.log == r.log
    ensures Leading(c0, a, v, r', n')
  {
    hide P.Acked;
    forall p | p in c0.current && p != v ensures Peered(c0, a, r', n', p) {
      assert Peered(c0, a, r, n, p);
    }
  }

  lemma NothingWritten<S>(env: Env<S>, c0: Config, a: P.System, images: Images, v: Id, trail: seq<Disk>)
    ensures Written(env, c0, a, images, v, trail, trail)
  {
  }

  /** A handler that changes no durable or related state. */
  lemma IdleSim<S>(env: Env<S>, c0: Config, a: P.System, images: Images, v: Id, n: Node<S>)
    requires World(c0, a, images) && NodeOk(env, c0, a, images, v, n)
    ensures Simulates(env, c0, a, images, a, v, n, n)
  {
    hide World, NodeOk;
    Stays(c0, a, images, v);
    NothingWritten(env, c0, a, images, v, n.trail);
  }

  lemma VoteMoves(c0: Config, a: P.System, images: Images, v: Id, b: P.Ballot)
    requires World(c0, a, images) && v in a.replicas && b in a.ballots && Q.MayVote(a.replicas[v], b)
    ensures Moves(c0, a, images, Q.CastVote(a, v, b), v)
  {
    hide P.Inv;
    Q.CastVoteKeeps(a, v, b);
    MovesIf(c0, a, images, Q.CastVote(a, v, b), v);
  }

  lemma GrantSim<S>(env: Env<S>, c0: Config, a: P.System, images: Images, v: Id, n: Node<S>, req: VoteRequest)
    returns (a': P.System)
    requires World(c0, a, images) && NodeOk(env, c0, a, images, v, n) && req.term == n.term && Grants(n, req)
    requires P.Ballot(req.term, req.candidate, req.lastIndex, req.lastTerm) in a.ballots
    ensures Simulates(env, c0, a, images, a', v, n,
                      Persist(n.(vote := Some(req.candidate)), n.disk.(vote := Some(req.candidate))))
    ensures P.HasGrant(a', v, n.term, req.candidate)
  {
    hide World, Moves, ImageOk, Fold, Plain, Office, SameDesk, IsVoter;
    var b := P.Ballot(req.term, req.candidate, req.lastIndex, req.lastTerm);
    var r := a.replicas[v];
    QueriesAgree(n.disk.log, r.log);
    assert Q.MayVote(r, b);
    a' := Q.CastVote(a, v, b);
    VoteMoves(c0, a, images, v, b);
    MovesLater(c0, a, images, a', v);
    assert P.Grant(v, b.term, b.candidate, r.log) in a'.grants;
    var n' := Persist(n.(vote := Some(req.candidate)), n.disk.(vote := Some(req.candidate)));
    WrittenOne(env, c0, a, images, a', v, n.trail, n'.disk);
    OfficeLog(env, c0, a, images, v, r, n);
    SameDeskVote(n, req.candidate);
    OfficePersists(env, c0, a, images, a', v, r, a'.replicas[v], n, n');
  }

  lemma SameDeskVote<S>(n: Node<S>, c: Id)
    ensures SameDesk(n, Persist(n.(vote := Some(c)), n.disk.(vote := Some(c))))
  {
  }

  lemma OfficeLog<S>(env: Env<S>, c0: Config, a: P.System, images: Images, v: Id, r: P.Replica, n: Node<S>)
    requires Office(env, c0, a, images, v, r, n)
    ensures n.me == v && (n.role == Leader ==> OwnImages(images, r.term, n.disk.log))
  {
  }

  lemma VoteRequestSim<S>(env: Env<S>, c0: Config, a: P.System, images: Images, v: Id, n: Node<S>, req: VoteRequest)
    returns (a': P.System)
    requires World(c0, a, images) && NodeOk(env, c0, a, images, v, n)
    requires P.Ballot(req.term, req.candidate, req.lastIndex, req.lastTerm) in a.ballots
    ensures Simulates(env, c0, a, images, a', v, n, HandleVoteRequest(n, req).0)
    ensures var reply := HandleVoteRequest(n, req).1;
            reply.granted ==> P.HasGrant(a', reply.peer, reply.term, req.candidate)
  {
    hide World, Moves, Stored, Live, Office, Written, StepDown, Grants, P.HasGrant;
    StepDownKeeps(n, req.term);
    OfficeLog(env, c0, a, images, v, a.replicas[v], n);
    var m, b := n, a;
    if req.term > n.term {
      b := StepDownSim(env, c0, a, images, v, n, req.term);
      m := StepDown(n, req.term);
      MovesLater(c0, a, images, b, v);
    } else {
      IdleSim(env, c0, a, images, v, n);
    }
    a' := b;
    if Grants(m, req) {
      GrantsNow(m, req);
      a' := GrantSim(env, c0, b, images, v, m, req);
      SimulatesTrans(env, c0, a, images, b, a', v, n, m, HandleVoteRequest(n, req).0);
    }
  }

  lemma GrantsNow<S>(n: Node<S>, req: VoteRequest)
    requires Grants(n, req)
    ensures req.term >= n.term
  {
  }

  lemma StepDownKeeps<S>(n: Node<S>, t: nat)
    ensures StepDown(n, t).term == t && StepDown(n, t).me == n.me && StepDown(n, t).role == Follower
    ensures StepDown(n, t).commit == n.commit && StepDown(n, t).disk.log == n.disk.log
    ensures StepDown(n, t).config == n.config && StepDown(n, t).pending == None
  {
  }

  // ---------------------------------------------------------------- committing and applying

  lemma AsCoherent<S>(env: Env<S>, c0: Config, r: P.Replica, n: Node<S>)
    requires Stored(env, c0, r, n.disk) && n.config == c0 && n.snapConfig == c0
    requires n.disk.log.base <= n.applied <= n.commit <= |r.log| && n.machine == Fold(env.app, r.log[..n.applied])
    ensures Coherent(env.app, c0, CoreOf(n), r.log)
  {
    hide ImageOk, Fold, FoldConfig;
    PlainPrefix(r.log, n.applied);
    PlainPrefix(r.log, n.disk.log.base);
    PlainFold(c0, r.log[..n.applied]);
    PlainFold(c0, r.log[..n.disk.log.base]);
  }

  lemma FromCoherent<S>(env: Env<S>, c0: Config, r: P.Replica, n: Node<S>)
    requires Coherent(env.app, c0, CoreOf(n), r.log) && Plain(r.log) && n.disk.admission == None
    requires n.disk.term == r.term && n.disk.vote == r.vote && n.commit == r.commit && n.applied == n.commit
    ensures Stored(env, c0, r, n.disk) && n.config == c0 && n.snapConfig == c0
    ensures n.machine == Fold(env.app, r.log[..r.commit])
  {
    hide ImageOk, Fold, FoldConfig;
    PlainPrefix(r.log, n.applied);
    PlainPrefix(r.log, n.disk.log.base);
    PlainFold(c0, r.log[..n.applied]);
    PlainFold(c0, r.log[..n.disk.log.base]);
  }

  lemma PlainPrefix(log: seq<Entry>, k: nat)
    requires Plain(log) && k <= |log|
    ensures Plain(log[..k])
  {
  }

  lemma PlainIsReady<S(!new)>(env: Env<S>, c0: Config, h: seq<Entry>)
    requires Setting(env, c0) && Plain(h)
    ensures Ready(env.app, c0, h) && !HasJoint(h)
  {
    hide SafeConfig, Lawful;
    forall i | 0 <= i < |h| ensures SafeEntry(h[i]) && !h[i].command.Joint? {
      assert IsPlain(h[i].command);
    }
  }

  lemma PlainNext<S>(env: Env<S>, n: Node<S>, e: Entry)
    requires n.applied < n.commit && EntryAt(n.disk.log, n.applied + 1) == Some(e) && IsPlain(e.command)
    ensures ApplyNext(env, n) == n.(applied := n.applied + 1, machine := ApplyTo(env.app, n.machine, e))
  {
    hide EntryAt, Reconfigure, MaybeAutoFinalize;
  }

  /** Applying plain entries touches the machine and nothing else. */
  lemma {:induction false} ApplyLoopPlain<S>(env: Env<S>, c0: Config, n: Node<S>, h: seq<Entry>)
    requires Coherent(env.app, c0, CoreOf(n), h) && Plain(h)
    ensures var r := ApplyLoop(env, n); r == n.(applied := n.commit, machine := r.machine)
    decreases n.commit - n.applied
  {
    hide Fold, FoldConfig, ImageOk, Represents, EntryAt, ApplyNext, ApplyTo;
    if n.applied < n.commit {
      StepCore(env.app, c0, CoreOf(n), h);
      assert IsPlain(h[n.applied].command);
      var m := ApplyNext(env, n);
      PlainNext(env, n, h[n.applied]);
      assert CoreOf(m) == CoreOf(n).(applied := n.applied + 1, config := ConfigAfter(n.config, h[n.applied]),
                                    machine := ApplyTo(env.app, n.machine, h[n.applied]));
      ApplyLoopPlain(env, c0, m, h);
    }
  }

  /** What remains the same when a plain log is applied and perhaps compacted. */
  ghost predicate Settled<S>(n: Node<S>, m: Node<S>) {
    && SameDesk(n, m) && m.term == n.term && m.vote == n.vote
    && m.joiningFrom == n.joiningFrom && m.joiners == n.joiners
    && m.disk == n.disk.(log := m.disk.log)
    && (if m.disk == n.disk then m.trail == n.trail
        else m.trail == n.trail + [m.disk] && m.disk.log.base > n.disk.log.base)
  }

  lemma CompactSettles<S>(env: Env<S>, n: Node<S>)
    ensures Settled(n, MaybeCompact(env, n))
  {
    hide Seal;
  }

  lemma SettledTrans<S>(n: Node<S>, m: Node<S>, k: Node<S>)
    requires m == n.(commit := m.commit, applied := m.applied, machine := m.machine) && Settled(m, k)
    ensures Settled(n, k)
  {
  }

  lemma ApplySettles<S(!new)>(env: Env<S>, c0: Config, n: Node<S>, r: P.Replica, c: nat)
    requires Setting(env, c0) && Stored(env, c0, r, n.disk) && Live(env, c0, r, n) && r.commit <= c <= |r.log|
    ensures var m := ApplyCommitted(env, n.(commit := c));
            Settled(n, m) && Stored(env, c0, r.(commit := c), m.disk) && Live(env, c0, r.(commit := c), m)
  {
    hide Setting, Represents, Fold, ImageOk, MaybeCompact, Coherent, Plain, Settled;
    var n1 := n.(commit := c);
    AsCoherent(env, c0, r, n1);
    PlainIsReady(env, c0, r.log);
    ApplyLoopPlain(env, c0, n1, r.log);
    var m := ApplyCommitted(env, n1);
    CompactSettles(env, ApplyLoop(env, n1));
    SettledTrans(n, ApplyLoop(env, n1), m);
    SettledFields(n, m);
    var h := ApplyCommittedCoherent(env, c0, n1, r.log);
    CompactKeepsCommit(env, ApplyLoop(env, n1));
    FromCoherent(env, c0, r.(commit := c), m);
  }

  lemma CompactKeepsCommit<S>(env: Env<S>, n: Node<S>)
    ensures MaybeCompact(env, n).commit == n.commit && MaybeCompact(env, n).applied == n.applied
  {
    hide Seal;
  }

  lemma SettledFields<S>(n: Node<S>, m: Node<S>)
    requires Settled(n, m)
    ensures m.role == n.role && m.me == n.me && m.term == n.term && m.vote == n.vote
    ensures m.joiningFrom == n.joiningFrom && m.joiners == n.joiners
    ensures m.disk == n.disk.(log := m.disk.log)
  {
  }

  lemma SettledOffice<S>(
    env: Env<S>, c0: Config, a: P.System, images: Images, a': P.System, v: Id, n: Node<S>, m: Node<S>)
    requires v in a.replicas && v in a'.replicas && P.Later(a, a')
    requires Office(env, c0, a, images, v, a.replicas[v], n) && Settled(n, m)
    requires a'.replicas[v].term == a.replicas[v].term && a'.replicas[v].log == a.replicas[v].log
    ensures Office(env, c0, a', images, v, a'.replicas[v], m)
  {
    hide Leading, Canvassing, Streaming;
    OfficePersists(env, c0, a, images, a', v, a.replicas[v], a'.replicas[v], n, m);
  }

  lemma SettledWritten<S>(
    env: Env<S>, c0: Config, a: P.System, images: Images, a': P.System, v: Id, n: Node<S>, m: Node<S>)
    requires Moves(c0, a, images, a', v) && Settled(n, m)
    requires v in a'.replicas && Stored(env, c0, a'.replicas[v], m.disk)
    ensures Written(env, c0, a, images, v, n.trail, m.trail)
  {
    hide Moves, Stored, Bootable, SameDesk;
    NothingWritten(env, c0, a, images, v, n.trail);
    WrittenOne(env, c0, a, images, a', v, n.trail, m.disk);
  }

  /** A commit index that the protocol allows, applied at once. */
  lemma CommitSim<S(!new)>(
    env: Env<S>, c0: Config, a: P.System, images: Images, v: Id, n: Node<S>, c: nat)
    requires Setting(env, c0) && NodeOk(env, c0, a, images, v, n)
    requires a.replicas[v].commit <= c <= |a.replicas[v].log|
    requires Moves(c0, a, images, Q.SetCommit(a, v, c), v)
    ensures Simulates(env, c0, a, images, Q.SetCommit(a, v, c), v, n, ApplyCommitted(env, n.(commit := c)))
  {
    hide Setting, Moves, Stored, Live, Office, Written, ApplyCommitted, Settled;
    var a' := Q.SetCommit(a, v, c);
    var m := ApplyCommitted(env, n.(commit := c));
    MovesLater(c0, a, images, a', v);
    ApplySettles(env, c0, n, a.replicas[v], c);
    SettledOffice(env, c0, a, images, a', v, n, m);
    SettledWritten(env, c0, a, images, a', v, n, m);
  }

  /** An index that commits is acknowledged by a majority of the voters. */
  lemma CommitsAcked<S>(env: Env<S>, c0: Config, a: P.System, images: Images, v: Id, n: Node<S>, k: nat)
    returns (q: set<Id>)
    requires NodeOk(env, c0, a, images, v, n) && n.role == Leader && a.voters == Voters(c0.current)
    requires n.commit < k <= |a.replicas[v].log| && Commits(n, k) && !IsJoint(c0)
    ensures P.AckedBy(a, q, n.term, k)
  {
    hide ImageOk, Fold, Plain, Represents, Streaming, OwnImages, FinalizesCarried;
    var r := a.replicas[v];
    FixedConfiguration(env, c0, r, n, k);
    q := Voters(c0.current) * Replicated(n, c0, k);
    forall w | w in q ensures P.Acked(a, w, n.term, k) {
      if w == v {
        AckedLess(a, w, n.term, |r.log|, k);
      } else {
        assert Peered(c0, a, r, n, w);
        AckedLess(a, w, n.term, Matched(n, w), k);
      }
    }
  }

  lemma AckedLess(a: P.System, v: Id, t: nat, n: nat, k: nat)
    requires P.Acked(a, v, t, n) && k <= n
    ensures P.Acked(a, v, t, k)
  {
  }

  lemma DecideMoves(c0: Config, a: P.System, images: Images, v: Id, q: set<Id>, k: nat)
    requires World(c0, a, images) && v in a.replicas && a.replicas[v].role == Leader
    requires 0 < k <= |a.replicas[v].log| && a.replicas[v].log[k - 1].term == a.replicas[v].term
    requires P.AckedBy(a, q, a.replicas[v].term, k)
    ensures Moves(c0, a, images, Q.SetCommit(a, v, k), v)
  {
    hide P.Inv, P.AckedBy;
    Q.DecideKeeps(a, v, q, k);
    MovesIf(c0, a, images, Q.SetCommit(a, v, k), v);
  }

  lemma WorldVoters(c0: Config, a: P.System, images: Images)
    requires World(c0, a, images)
    ensures a.voters == Voters(c0.current) && a.replicas.Keys == c0.current.Keys
  {
  }

  lemma AdvanceSim<S(!new)>(env: Env<S>, c0: Config, a: P.System, images: Images, v: Id, n: Node<S>)
    returns (a': P.System)
    requires Setting(env, c0) && World(c0, a, images) && NodeOk(env, c0, a, images, v, n) && n.role == Leader
    ensures Simulates(env, c0, a, images, a', v, n, AdvanceCommit(env, n))
  {
    hide World, Moves, Office, Written, ApplyCommitted, CommitScan, Commits, Lawful, SafeConfig, Fold, ImageOk, Plain;
    var r := a.replicas[v];
    var c := CommitScan(n, LastIndex(n.disk.log));
    ScanFinds(n, LastIndex(n.disk.log));
    a' := a;
    if c > n.commit {
      QueriesAgree(n.disk.log, r.log);
      WorldVoters(c0, a, images);
      var q := CommitsAcked(env, c0, a, images, v, n, c);
      CommitTerm(n, c);
      DecideMoves(c0, a, images, v, q, c);
      CommitSim(env, c0, a, images, v, n, c);
      a' := Q.SetCommit(a, v, c);
    } else {
      IdleSim(env, c0, a, images, v, n);
    }
  }

  lemma CommitTerm<S>(n: Node<S>, k: nat)
    requires Commits(n, k)
    ensures TermAt(n.disk.log, k) == n.term
  {
  }

  // ---------------------------------------------------------------- appending as a leader

  /** A leader that may not yet have written anything in its term. */
  ghost predicate Entering<S>(env: Env<S>, c0: Config, a: P.System, images: Images, v: Id, n: Node<S>) {
    && v in a.replicas && n.me == v && n.role == Leader
    && Stored(env, c0, a.replicas[v], n.disk) && Live(env, c0, a.replicas[v], n)
    && Peers(c0, a, v, a.replicas[v], n) && OwnImages(images, a.replicas[v].term, n.disk.log)
    && (n.pending.Some? ==> Streaming(env, c0, a, images, n.pending.value))
  }

  lemma AppendMoves(c0: Config, a: P.System, images: Images, v: Id, e: Entry)
    requires World(c0, a, images) && v in a.replicas && a.replicas[v].role == Leader
    requires e.term == a.replicas[v].term && IsPlain(e.command) && Plain(a.replicas[v].log)
    ensures Moves(c0, a, images, Q.Append(a, v, e), v)
  {
    hide P.Inv;
    Q.AppendKeeps(a, v, e);
    MovesIf(c0, a, images, Q.Append(a, v, e), v);
  }

  lemma AppendedStored<S>(env: Env<S>, c0: Config, r: P.Replica, n: Node<S>, e: Entry)
    requires Stored(env, c0, r, n.disk) && Live(env, c0, r, n) && IsPlain(e.command)
    ensures var r' := r.(log := r.log + [e]);
            var d := n.disk.(log := AppendAll(n.disk.log, [e]));
            Stored(env, c0, r', d) && Live(env, c0, r', n)
  {
    hide ImageOk, Fold;
    AppendRepresents(n.disk.log, r.log, [e]);
    assert (r.log + [e])[..n.disk.log.base] == r.log[..n.disk.log.base];
    assert (r.log + [e])[..r.commit] == r.log[..r.commit];
  }

  lemma AppendedPeers<S>(c0: Config, a: P.System, a': P.System, v: Id, r: P.Replica, r': P.Replica, n: Node<S>)
    requires P.Later(a, a') && Peers(c0, a, v, r, n) && r'.term == r.term && |r.log| <= |r'.log|
    ensures Peers(c0, a', v, r', n)
  {
    hide P.Acked, Matched, Next;
    forall p | p in c0.current && p != v ensures Peered(c0, a', r', n, p) {
      assert Peered(c0, a, r, n, p);
      if Matched(n, p) != 0 {
        P.AckedPersists(a, a', p, r.term, Matched(n, p));
      }
    }
  }

  lemma AppendOwnSim<S>(
    env: Env<S>, c0: Config, a: P.System, images: Images, v: Id, n: Node<S>, command: Command)
    returns (a': P.System)
    requires World(c0, a, images) && Entering(env, c0, a, images, v, n) && IsPlain(command)
    ensures Simulates(env, c0, a, images, a', v, n, AppendOwn(n, command))
  {
    hide World, Moves, Stored, Vouched, Peers, OwnImages;
    var e := Entry(n.term, n.me, command);
    var r := a.replicas[v];
    StoredPlain(env, c0, r, n.disk);
    a' := Q.Append(a, v, e);
    AppendMoves(c0, a, images, v, e);
    MovesLater(c0, a, images, a', v);
    AppendedStored(env, c0, r, n, e);
    var n' := AppendOwn(n, command);
    WrittenOne(env, c0, a, images, a', v, n.trail, n'.disk);
    AppendedPeers(c0, a, a', v, r, a'.replicas[v], n);
    PeersSame(c0, a', v, a'.replicas[v], n, n');
    OwnImagesSame(images, r.term, n.disk.log, n'.disk.log);
    assert P.Ack(v, r.term, |r.log + [e]|) in a'.acks;
    if n.pending.Some? {
      var p := n.pending.value;
      VouchedPersists(env, c0, a, images, a', images, p.term, p.lastIndex, p.lastTerm);
    }
  }

  lemma StoredPlain<S>(env: Env<S>, c0: Config, r: P.Replica, d: Disk)
    requires Stored(env, c0, r, d)
    ensures Plain(r.log) && Represents(d.log, r.log) && d.log.base <= r.commit <= |r.log|
  {
  }

  lemma PeersSame<S>(c0: Config, a: P.System, v: Id, r: P.Replica, n: Node<S>, n': Node<S>)
    requires Peers(c0, a, v, r, n) && n'.matched == n.matched && n'.next == n.next
    ensures Peers(c0, a, v, r, n')
  {
    hide P.Acked;
    forall p | p in c0.current && p != v ensures Peered(c0, a, r, n', p) {
      assert Peered(c0, a, r, n, p);
    }
  }

  lemma OwnImagesSame(images: Images, t: nat, l: Log, l': Log)
    requires OwnImages(images, t, l) && l'.base == l.base && l'.image == l.image
    ensures OwnImages(images, t, l')
  {
  }

  lemma LeaderEnters<S>(env: Env<S>, c0: Config, a: P.System, images: Images, v: Id, n: Node<S>)
    requires NodeOk(env, c0, a, images, v, n) && n.role == Leader
    ensures Entering(env, c0, a, images, v, n)
  {
    hide Stored, Live, Peers, OwnImages, Streaming;
  }

  /** Append one entry and see what it commits. */
  lemma AppendAdvanceSim<S(!new)>(
    env: Env<S>, c0: Config, a: P.System, images: Images, v: Id, n: Node<S>, command: Command)
    returns (a': P.System)
    requires Setting(env, c0) && World(c0, a, images) && Entering(env, c0, a, images, v, n) && IsPlain(command)
    ensures Simulates(env, c0, a, images, a', v, n, AdvanceCommit(env, AppendOwn(n, command)))
  {
    hide Setting, World, Moves, NodeOk, Written, AdvanceCommit;
    var b := AppendOwnSim(env, c0, a, images, v, n, command);
    MovesLater(c0, a, images, b, v);
    var m := AppendOwn(n, command);
    a' := AdvanceSim(env, c0, b, images, v, m);
    SimulatesTrans(env, c0, a, images, b, a', v, n, m, AdvanceCommit(env, m));
  }

  lemma SubmitSim<S(!new)>(env: Env<S>, c0: Config, a: P.System, images: Images, v: Id, n: Node<S>, command: Command)
    returns (a': P.System)
    requires Setting(env, c0) && World(c0, a, images) && NodeOk(env, c0, a, images, v, n) && IsPlain(command)
    ensures Simulates(env, c0, a, images, a', v, n, SubmitCommand(env, n, command).0)
  {
    hide Setting, World, NodeOk, Simulates, AdvanceCommit, AppendOwn;
    IdleSim(env, c0, a, images, v, n);
    a' := a;
    if n.role == Leader && SizeOf(env, command) <= MAX_COMMAND_BYTES {
      LeaderEnters(env, c0, a, images, v, n);
      a' := AppendAdvanceSim(env, c0, a, images, v, n, command);
    }
  }

  lemma ReadSim<S(!new)>(
    env: Env<S>, c0: Config, a: P.System, images: Images, v: Id, n: Node<S>, query: Bytes, token: nat)
    returns (a': P.System)
    requires Setting(env, c0) && World(c0, a, images) && NodeOk(env, c0, a, images, v, n)
    ensures Simulates(env, c0, a, images, a', v, n, BeginRead(env, n, query, token).0)
  {
    hide Setting, World, NodeOk, Simulates, AdvanceCommit, AppendOwn, Entering, IsVoter;
    IdleSim(env, c0, a, images, v, n);
    a' := a;
    var r := BeginRead(env, n, query, token);
    if r.1.Ok? {
      LeaderEnters(env, c0, a, images, v, n);
      var domain := if n.readDomain == None then token else n.readDomain.value;
      var m := n.(readDomain := Some(domain));
      DomainEnters(env, c0, a, images, v, n, domain);
      a' := AppendAdvanceSim(env, c0, a, images, v, m, Noop);
      SameTrail(env, c0, a, images, a', v, m, n, r.0);
    }
  }

  lemma DomainEnters<S>(env: Env<S>, c0: Config, a: P.System, images: Images, v: Id, n: Node<S>, domain: nat)
    requires Entering(env, c0, a, images, v, n)
    ensures Entering(env, c0, a, images, v, n.(readDomain := Some(domain)))
  {
    hide Stored, OwnImages, Streaming;
    PeersSame(c0, a, v, a.replicas[v], n, n.(readDomain := Some(domain)));
  }

  lemma SameTrail<S>(
    env: Env<S>, c0: Config, a: P.System, images: Images, a': P.System, v: Id, m: Node<S>, n: Node<S>, r: Node<S>)
    requires Simulates(env, c0, a, images, a', v, m, r) && n.trail == m.trail
    ensures Simulates(env, c0, a, images, a', v, n, r)
  {
    hide NodeOk, Moves;
  }

  // ---------------------------------------------------------------- elections

  lemma NewTerm(a: P.System, q: set<Id>, v: Id)
    requires P.Inv(a) && Q.Wins(a, q, v)
    ensures a.replicas[v].term !in a.tenures
  {
    hide P.ReplicasOk, P.CandidatesOk, P.AcksOk, P.AcksKept, P.GrantsKept, P.Complete, P.OffersOk;
    Q.WinnerIsFresh(a, q, v);
  }

  lemma ElectMoves(c0: Config, a: P.System, images: Images, v: Id, q: set<Id>)
    requires World(c0, a, images) && Q.Wins(a, q, v) && Plain(a.replicas[v].log)
    ensures Moves(c0, a, images, Q.Elect(a, v), v)
    ensures forall i :: (a.replicas[v].term, i) !in images
  {
    hide P.Inv;
    NewTerm(a, q, v);
    Q.ElectKeeps(a, q, v);
    MovesIf(c0, a, images, Q.Elect(a, v), v);
  }

  lemma OfficePeers<S>(env: Env<S>, c0: Config, a: P.System, v: Id, r: P.Replica, n: Node<S>)
    requires Stored(env, c0, r, n.disk) && n.snapConfig == c0 && n.me == v
    ensures Peers(c0, a, v, r, TakeOffice(n))
  {
    hide ImageOk, Fold, Plain, P.Acked, FoldConfig;
    FixedConfiguration(env, c0, r, n, LastIndex(n.disk.log));
    QueriesAgree(n.disk.log, r.log);
    var m := TakeOffice(n);
    forall p | p in c0.current && p != v ensures Peered(c0, a, r, m, p) {
      assert p in Others(n);
    }
  }

  lemma TakeOfficeSim<S>(env: Env<S>, c0: Config, a: P.System, images: Images, v: Id, n: Node<S>)
    returns (a': P.System)
    requires World(c0, a, images) && NodeOk(env, c0, a, images, v, n) && n.role == Candidate && !IsJoint(c0)
    requires HasJointMajority(Effective(n), n.votes)
    ensures Moves(c0, a, images, a', v) && Entering(env, c0, a', images, v, TakeOffice(n))
  {
    hide World, Moves, Stored, Vouched, TakeOffice, Peers, OwnImages, HasJointMajority, Effective;
    var r := a.replicas[v];
    var q := VotesWin(env, c0, a, images, v, n);
    StoredPlain(env, c0, r, n.disk);
    ElectMoves(c0, a, images, v, q);
    a' := Q.Elect(a, v);
    MovesLater(c0, a, images, a', v);
    TakeOfficeFields(n);
    StoredRole(env, c0, r, n.disk, Leader);
    OfficePeers(env, c0, a', v, a'.replicas[v], n);
    NoImages(images, r.term, n.disk.log);
    if n.pending.Some? {
      var p := n.pending.value;
      VouchedPersists(env, c0, a, images, a', images, p.term, p.lastIndex, p.lastTerm);
    }
  }

  lemma VotesWin<S>(env: Env<S>, c0: Config, a: P.System, images: Images, v: Id, n: Node<S>) returns (q: set<Id>)
    requires World(c0, a, images) && NodeOk(env, c0, a, images, v, n) && n.role == Candidate && !IsJoint(c0)
    requires HasJointMajority(Effective(n), n.votes)
    ensures Q.Wins(a, q, v)
  {
    hide World, Stored, Streaming;
    WorldVoters(c0, a, images);
    FixedConfiguration(env, c0, a.replicas[v], n, LastIndex(n.disk.log));
    q := Voters(c0.current) * n.votes;
    assert P.Majority(a.voters, q);
  }

  lemma TakeOfficeFields<S>(n: Node<S>)
    ensures var m := TakeOffice(n);
            && m == n.(role := Leader, knownLeader := m.knownLeader, votes := {}, next := m.next, matched := m.matched,
                       offsets := m.offsets)
  {
    hide Others, Restart;
  }

  lemma StoredRole<S>(env: Env<S>, c0: Config, r: P.Replica, d: Disk, role: Role)
    requires Stored(env, c0, r, d)
    ensures Stored(env, c0, r.(role := role), d)
  {
    hide ImageOk, Fold;
  }

  lemma NoImages(images: Images, t: nat, l: Log)
    requires forall i :: (t, i) !in images
    ensures OwnImages(images, t, l)
  {
  }

  lemma BecomeLeaderSim<S(!new)>(env: Env<S>, c0: Config, a: P.System, images: Images, v: Id, n: Node<S>)
    returns (a': P.System)
    requires Setting(env, c0) && World(c0, a, images) && NodeOk(env, c0, a, images, v, n) && n.role == Candidate
    requires HasJointMajority(Effective(n), n.votes)
    ensures Simulates(env, c0, a, images, a', v, n, BecomeLeader(env, n))
  {
    hide Lawful, SafeConfig, World, Moves, NodeOk, Written, AdvanceCommit, AppendOwn, Effective, HasJointMajority, Entering;
    var b := TakeOfficeSim(env, c0, a, images, v, n);
    MovesLater(c0, a, images, b, v);
    a' := AppendAdvanceSim(env, c0, b, images, v, TakeOffice(n), Noop);
    MovesTrans(c0, a, images, b, a', v);
    NothingWritten(env, c0, a, images, v, n.trail);
    WrittenTrans(env, c0, a, images, b, v, n.trail, n.trail, BecomeLeader(env, n).trail);
  }

  lemma VotedSim<S>(env: Env<S>, c0: Config, a: P.System, images: Images, v: Id, n: Node<S>, peer: Id)
    requires World(c0, a, images) && NodeOk(env, c0, a, images, v, n) && n.role == Candidate
    requires P.HasGrant(a, peer, n.term, v)
    ensures Simulates(env, c0, a, images, a, v, n, n.(votes := n.votes + {peer}))
  {
    hide World, Stored, Streaming, P.HasGrant;
    Stays(c0, a, images, v);
    NothingWritten(env, c0, a, images, v, n.trail);
  }

  lemma VoteReplySim<S(!new)>(env: Env<S>, c0: Config, a: P.System, images: Images, v: Id, n: Node<S>, reply: VoteReply)
    returns (a': P.System)
    requires Setting(env, c0) && World(c0, a, images) && NodeOk(env, c0, a, images, v, n)
    requires reply.granted ==> P.HasGrant(a, reply.peer, reply.term, v)
    ensures Simulates(env, c0, a, images, a', v, n, HandleVoteReply(env, n, reply.peer, reply))
  {
    hide Setting, World, NodeOk, Written, BecomeLeader, Effective, HasJointMajority, IsVoter, StepDown;
    IdleSim(env, c0, a, images, v, n);
    a' := a;
    if n.role == Candidate {
      if reply.term > n.term {
        a' := StepDownSim(env, c0, a, images, v, n, reply.term);
      } else if reply.term == n.term && reply.granted && IsVoter(Effective(n), reply.peer) {
        var m := n.(votes := n.votes + {reply.peer});
        VotedSim(env, c0, a, images, v, n, reply.peer);
        if HasJointMajority(Effective(m), m.votes) {
          a' := BecomeLeaderSim(env, c0, a, images, v, m);
          SameTrail(env, c0, a, images, a', v, m, n, BecomeLeader(env, m));
        }
      }
    }
  }

  lemma CampaignMoves(c0: Config, a: P.System, images: Images, v: Id)
    requires World(c0, a, images) && v in a.replicas
    ensures Moves(c0, a, images, Q.StartElection(a, v), v)
  {
    hide P.Inv;
    Q.StartElectionKeeps(a, v);
    MovesIf(c0, a, images, Q.StartElection(a, v), v);
  }

  lemma CampaignSim<S>(env: Env<S>, c0: Config, a: P.System, images: Images, v: Id, n: Node<S>)
    returns (a': P.System)
    requires World(c0, a, images) && NodeOk(env, c0, a, images, v, n)
    ensures Simulates(env, c0, a, images, a', v, n, Campaign(n))
    ensures var req := Solicit(n); P.Ballot(req.term, req.candidate, req.lastIndex, req.lastTerm) in a'.ballots
  {
    hide World, Moves, ImageOk, Fold, Plain;
    var r := a.replicas[v];
    QueriesAgree(n.disk.log, r.log);
    var t := n.term + 1;
    var b := Q.RaiseTerm(a, v, t, n.vote);
    a' := Q.StartElection(a, v);
    RaiseMoves(c0, a, images, v, t, n.vote);
    CampaignMoves(c0, a, images, v);
    var d1 := n.disk.(term := t);
    var d2 := d1.(vote := Some(n.me));
    WrittenOne(env, c0, a, images, b, v, n.trail, d1);
    WrittenOne(env, c0, a, images, a', v, n.trail + [d1], d2);
    WrittenAppend(env, c0, a, images, v, n.trail, d1, d2);
    assert P.Grant(v, t, v, r.log) in a'.grants;
  }

  lemma RestMoves(c0: Config, a: P.System, images: Images, v: Id, commit: nat)
    requires World(c0, a, images) && v in a.replicas && commit <= a.replicas[v].commit
    ensures Moves(c0, a, images, Q.Rest(a, v, commit), v)
  {
    hide P.Inv;
    Q.RestKeeps(a, v, commit);
    MovesIf(c0, a, images, Q.Rest(a, v, commit), v);
  }

  /** Back to follower within the term. */
  lemma RestSim<S>(env: Env<S>, c0: Config, a: P.System, images: Images, v: Id, n: Node<S>, n': Node<S>)
    returns (a': P.System)
    requires World(c0, a, images) && NodeOk(env, c0, a, images, v, n)
    requires n' == n.(role := Follower, votes := n'.votes, knownLeader := n'.knownLeader)
    ensures Simulates(env, c0, a, images, a', v, n, n')
  {
    hide World, Moves, ImageOk, Fold, Plain;
    a' := Q.Rest(a, v, n.commit);
    RestMoves(c0, a, images, v, n.commit);
    MovesLater(c0, a, images, a', v);
    NothingWritten(env, c0, a, images, v, n.trail);
    FollowerOffice(env, c0, a, images, v, n, n', a');
  }

  lemma TimeoutSim<S(!new)>(env: Env<S>, c0: Config, a: P.System, images: Images, v: Id, n: Node<S>)
    returns (a': P.System)
    requires Setting(env, c0) && World(c0, a, images) && NodeOk(env, c0, a, images, v, n)
    ensures Simulates(env, c0, a, images, a', v, n, StartElection(env, n))
    ensures MayCampaign(n) ==>
              var req := Solicit(n); P.Ballot(req.term, req.candidate, req.lastIndex, req.lastTerm) in a'.ballots
  {
    hide Setting, World, NodeOk, Written, BecomeLeader, Effective, HasJointMajority, MayCampaign, Solicit;
    if MayCampaign(n) {
      var b := CampaignSim(env, c0, a, images, v, n);
      MovesLater(c0, a, images, b, v);
      var m := Campaign(n);
      a' := b;
      if HasJointMajority(Effective(m), m.votes) {
        a' := BecomeLeaderSim(env, c0, b, images, v, m);
        SimulatesTrans(env, c0, a, images, b, a', v, n, m, BecomeLeader(env, m));
        MovesLater(c0, b, images, a', v);
      }
    } else {
      a' := RestSim(env, c0, a, images, v, n, StartElection(env, n));
    }
  }

  // ---------------------------------------------------------------- replies to a leader

  lemma AckedInLog(a: P.System, v: Id, p: Id, k: nat)
    requires P.AcksOk(a) && P.RolesOk(a) && v in a.replicas && a.replicas[v].role == Leader
    requires P.Acked(a, p, a.replicas[v].term, k)
    ensures k <= |a.replicas[v].log|
  {
    assert P.RoleOk(a, v, a.replicas[v]);
    var n :| n >= k && P.Ack(p, a.replicas[v].term, n) in a.acks;
    assert P.AckOk(a, P.Ack(p, a.replicas[v].term, n));
  }

  lemma AckedInWorld(c0: Config, a: P.System, images: Images, v: Id, p: Id, k: nat)
    requires World(c0, a, images) && v in a.replicas && a.replicas[v].role == Leader
    requires P.Acked(a, p, a.replicas[v].term, k)
    ensures k <= |a.replicas[v].log|
  {
    hide P.ReplicasOk, P.TenuresOk, P.GrantsOk, P.CandidatesOk, P.AcksKept, P.GrantsKept, P.Complete, P.OffersOk;
    AckedInLog(a, v, p, k);
  }

  /** A leader's office after its progress maps moved. */
  lemma ProgressSim<S>(
    env: Env<S>, c0: Config, a: P.System, images: Images, v: Id, n: Node<S>, n': Node<S>)
    requires World(c0, a, images) && NodeOk(env, c0, a, images, v, n) && n.role == Leader
    requires n' == n.(matched := n'.matched, next := n'.next, offsets := n'.offsets)
    requires Peers(c0, a, v, a.replicas[v], n')
    ensures Simulates(env, c0, a, images, a, v, n, n')
  {
    hide World, Stored, Streaming, OwnImages, Peers, P.Acked;
    Stays(c0, a, images, v);
    NothingWritten(env, c0, a, images, v, n.trail);
  }

  lemma RecordPeers<S>(c0: Config, a: P.System, v: Id, r: P.Replica, n: Node<S>, peer: Id, index: nat)
    requires Peers(c0, a, v, r, n) && P.Acked(a, peer, r.term, index) && index <= |r.log|
    requires Matched(n, peer) <= |r.log| && peer in c0.current && peer != v
    ensures Peers(c0, a, v, r, RecordProgress(n, peer, index))
  {
    hide P.Acked;
    var m := RecordProgress(n, peer, index);
    forall p | p in c0.current && p != v ensures Peered(c0, a, r, m, p) {
      assert Peered(c0, a, r, n, p);
    }
  }

  lemma BackOffPeers<S>(c0: Config, a: P.System, v: Id, r: P.Replica, n: Node<S>, peer: Id)
    requires Peers(c0, a, v, r, n) && Matched(n, peer) <= |r.log|
    ensures Peers(c0, a, v, r, BackOff(n, peer))
  {
    hide P.Acked;
    var m := BackOff(n, peer);
    forall p | p in c0.current && p != v ensures Peered(c0, a, r, m, p) {
      assert Peered(c0, a, r, n, p);
    }
  }

  /** Facts about a peer whose reply a leader accepts. */
  lemma AcceptedPeer<S>(env: Env<S>, c0: Config, a: P.System, images: Images, v: Id, n: Node<S>, peer: Id)
    requires World(c0, a, images) && NodeOk(env, c0, a, images, v, n) && n.role == Leader && !IsJoint(c0)
    requires AcceptsReply(n, peer, peer)
    ensures peer in c0.current && peer != v && Matched(n, peer) <= |a.replicas[v].log|
    ensures Peers(c0, a, v, a.replicas[v], n) && LastIndex(n.disk.log) == |a.replicas[v].log|
  {
    hide World, ImageOk, Fold, Plain, Streaming, OwnImages, P.Acked;
    var r := a.replicas[v];
    FixedConfiguration(env, c0, r, n, LastIndex(n.disk.log));
    QueriesAgree(n.disk.log, r.log);
    assert Peered(c0, a, r, n, peer);
    if Matched(n, peer) != 0 {
      AckedInWorld(c0, a, images, v, peer, Matched(n, peer));
    }
  }

  lemma FinalizeIdle<S>(env: Env<S>, n: Node<S>)
    requires !IsJoint(n.config)
    ensures MaybeAutoFinalize(env, n) == n
  {
  }

  lemma NodeFacts<S>(env: Env<S>, c0: Config, a: P.System, images: Images, v: Id, n: Node<S>)
    requires NodeOk(env, c0, a, images, v, n)
    ensures v in a.replicas && n.me == v && n.term == a.replicas[v].term && n.role == a.replicas[v].role
    ensures n.config == c0 && n.commit == a.replicas[v].commit <= |a.replicas[v].log|
    ensures LastIndex(n.disk.log) == |a.replicas[v].log|
  {
    hide ImageOk, Fold, Plain, Streaming, OwnImages, Leading, Canvassing;
    QueriesAgree(n.disk.log, a.replicas[v].log);
  }

  lemma RecordSim<S(!new)>(
    env: Env<S>, c0: Config, a: P.System, images: Images, v: Id, n: Node<S>, m: Node<S>, peer: Id, index: nat)
    returns (a': P.System)
    requires Setting(env, c0) && World(c0, a, images) && NodeOk(env, c0, a, images, v, n) && n.role == Leader
    requires AcceptsReply(n, peer, peer) && index <= LastIndex(n.disk.log) && P.Acked(a, peer, n.term, index)
    requires m == RecordProgress(n, peer, index).(offsets := m.offsets)
    ensures Simulates(env, c0, a, images, a', v, n, AdvanceCommit(env, m))
  {
    hide World, NodeOk, Written, AdvanceCommit, AcceptsReply, P.Acked, Lawful, SafeConfig;
    NodeFacts(env, c0, a, images, v, n);
    AcceptedPeer(env, c0, a, images, v, n, peer);
    RecordPeers(c0, a, v, a.replicas[v], n, peer, index);
    PeersSame(c0, a, v, a.replicas[v], RecordProgress(n, peer, index), m);
    ProgressSim(env, c0, a, images, v, n, m);
    a' := AdvanceSim(env, c0, a, images, v, m);
    SameTrail(env, c0, a, images, a', v, m, n, AdvanceCommit(env, m));
  }

  lemma AppendReplySim<S(!new)>(
    env: Env<S>, c0: Config, a: P.System, images: Images, v: Id, n: Node<S>, reply: AppendReply)
    returns (a': P.System)
    requires Setting(env, c0) && World(c0, a, images) && NodeOk(env, c0, a, images, v, n)
    requires reply.success ==> P.Acked(a, reply.peer, reply.term, reply.matchIndex)
    ensures Simulates(env, c0, a, images, a', v, n, HandleAppendReply(env, n, reply.peer, reply))
  {
    hide World, NodeOk, Simulates, AdvanceCommit, AcceptsReply, P.Acked, Lawful, SafeConfig, StepDown, MaybeAutoFinalize;
    IdleSim(env, c0, a, images, v, n);
    a' := a;
    if n.role == Leader && AcceptsReply(n, reply.peer, reply.peer) {
      if reply.term > n.term {
        a' := StepDownSim(env, c0, a, images, v, n, reply.term);
      } else if reply.term == n.term {
        if !reply.success {
          NodeFacts(env, c0, a, images, v, n);
          AcceptedPeer(env, c0, a, images, v, n, reply.peer);
          BackOffPeers(c0, a, v, a.replicas[v], n, reply.peer);
          ProgressSim(env, c0, a, images, v, n, BackOff(n, reply.peer));
        } else if reply.matchIndex <= LastIndex(n.disk.log) {
          var m := RecordProgress(n, reply.peer, reply.matchIndex);
          a' := RecordSim(env, c0, a, images, v, n, m, reply.peer, reply.matchIndex);
          SimulatesNode(env, c0, a, images, a', v, n, AdvanceCommit(env, m));
          FinalizeIdle(env, AdvanceCommit(env, m));
        }
      }
    }
  }

  lemma SimulatesNode<S>(
    env: Env<S>, c0: Config, a: P.System, images: Images, a': P.System, v: Id, n: Node<S>, n': Node<S>)
    requires Simulates(env, c0, a, images, a', v, n, n')
    ensures NodeOk(env, c0, a', images, v, n') && World(c0, a', images) && P.Later(a, a')
    ensures n'.config == c0 && n'.me == v
  {
    hide World, Stored, Leading, Canvassing, Streaming;
  }

  lemma ChunkReplySim<S(!new)>(
    env: Env<S>, c0: Config, a: P.System, images: Images, v: Id, n: Node<S>, reply: ChunkReply, next: nat, done: bool)
    returns (a': P.System)
    requires Setting(env, c0) && World(c0, a, images) && NodeOk(env, c0, a, images, v, n)
    requires reply.success && reply.done ==> P.Acked(a, reply.peer, reply.term, reply.lastIndex)
    ensures Simulates(env, c0, a, images, a', v, n, HandleChunkReply(env, n, reply.peer, reply, next, done))
  {
    hide World, NodeOk, Simulates, AdvanceCommit, AcceptsReply, P.Acked, Lawful, SafeConfig, StepDown;
    IdleSim(env, c0, a, images, v, n);
    a' := a;
    if AcceptsReply(n, reply.peer, reply.peer) {
      if reply.term > n.term {
        a' := StepDownSim(env, c0, a, images, v, n, reply.term);
      } else if n.role == Leader && reply.term == n.term {
        var r := HandleChunkReply(env, n, reply.peer, reply, next, done);
        if reply.success && reply.lastIndex <= LastIndex(n.disk.log) && done && reply.done {
          var m := RecordProgress(n, reply.peer, reply.lastIndex).(offsets := n.offsets[reply.peer := 0]);
          a' := RecordSim(env, c0, a, images, v, n, m, reply.peer, reply.lastIndex);
        } else {
          OffsetsSim(env, c0, a, images, v, n, r);
        }
      }
    }
  }

  lemma OffsetsSim<S>(env: Env<S>, c0: Config, a: P.System, images: Images, v: Id, n: Node<S>, n': Node<S>)
    requires World(c0, a, images) && NodeOk(env, c0, a, images, v, n) && n' == n.(offsets := n'.offsets)
    ensures Simulates(env, c0, a, images, a, v, n, n')
  {
    hide World, Stored, Streaming, OwnImages, Peers;
    Stays(c0, a, images, v);
    NothingWritten(env, c0, a, images, v, n.trail);
    if n.role == Leader {
      PeersSame(c0, a, v, a.replicas[v], n, n');
    }
  }
}
