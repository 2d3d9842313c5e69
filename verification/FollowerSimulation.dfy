/** Following a leader: appended entries, snapshot chunks and restarts, as protocol steps. */
module FollowerSimulation {
  import opened Basics
  import opened RaftTypes
  import opened Membership
  import opened LogStore
  import opened Node
  import opened Handlers
  import opened Coherence
  import opened Cluster
  import opened Simulation
  import SnapshotCodec
  import P = Protocol
  import Q = ProtocolSteps

  // ---------------------------------------------------------------- taking a leader

  lemma FollowSim<S>(env: Env<S>, c0: Config, a: P.System, images: Images, v: Id, n: Node<S>, t: nat, leader: Id)
    returns (a': P.System)
    requires World(c0, a, images) && NodeOk(env, c0, a, images, v, n) && n.term <= t
    ensures Simulates(env, c0, a, images, a', v, n, Follow(n, t, leader))
    ensures Follow(n, t, leader).term == t && Follow(n, t, leader).role == Follower
  {
    hide World, NodeOk, Simulates, StepDown, Follow;
    StepDownKeeps(n, t);
    if t > n.term {
      FollowsUp(n, t, leader);
      a' := StepDownSim(env, c0, a, images, v, n, t);
      KnownLeader(env, c0, a, images, a', v, n, StepDown(n, t), leader);
    } else {
      FollowsOn(n, t, leader);
      a' := RestSim(env, c0, a, images, v, n, Follow(n, t, leader));
    }
  }

  lemma FollowsUp<S>(n: Node<S>, t: nat, leader: Id)
    requires t > n.term
    ensures Follow(n, t, leader) == StepDown(n, t).(knownLeader := Some(leader))
  {
    hide StepDown;
  }

  lemma FollowsOn<S>(n: Node<S>, t: nat, leader: Id)
    requires t <= n.term
    ensures var f := Follow(n, t, leader);
            f == n.(role := Follower, votes := f.votes, knownLeader := f.knownLeader)
  {
    hide StepDown;
  }

  lemma KnownLeader<S>(
    env: Env<S>, c0: Config, a: P.System, images: Images, a': P.System, v: Id, n: Node<S>, m: Node<S>, leader: Id)
    requires Simulates(env, c0, a, images, a', v, n, m) && m.role == Follower
    ensures Simulates(env, c0, a, images, a', v, n, m.(knownLeader := Some(leader)))
  {
    hide World, Moves, Stored, Streaming, Written;
  }

  // ---------------------------------------------------------------- merging entries

  /** Skipping, cutting and appending leave the offered log, or a log that extends it. */
  lemma {:induction false} MergeAdopts(a: P.System, l: Log, h: seq<Entry>, o: seq<Entry>, prev: nat, i: nat)
    requires P.Traced(a, h) && P.Traced(a, o) && Represents(l, h)
    requires l.base <= prev <= |o| && i <= |o| - prev && prev + i <= |h| && h[..prev + i] == o[..prev + i]
    ensures Represents(Merge(l, prev, o[prev..], i), Q.Adopted(h, o))
    decreases |o| - prev - i
  {
    hide P.Traced, Represents, AppendAll, TruncateFrom;
    var k := prev + i;
    QueriesAgree(l, h);
    BaseInLog(l, h);
    if k < |o| {
      DropDrop(o, prev, i);
      if k == |h| {
        Appended(l, h, o, k);
      } else if h[k].term != o[k].term {
        TruncateRepresents(l, h, k + 1);
        Appended(TruncateFrom(l, k + 1), h[..k], o, k);
      } else {
        P.LogMatching(a, h, o, k + 1);
        MergeAdopts(a, l, h, o, prev, i + 1);
      }
    }
  }

  lemma BaseInLog(l: Log, h: seq<Entry>)
    requires Represents(l, h)
    ensures l.base <= |h|
  {
  }

  lemma DropDrop(o: seq<Entry>, prev: nat, i: nat)
    requires prev + i < |o|
    ensures o[prev..][i..] == o[prev + i..] && o[prev..][i] == o[prev + i]
  {
  }

  lemma Appended(l: Log, h: seq<Entry>, o: seq<Entry>, k: nat)
    requires Represents(l, h) && k == |h| < |o| && h == o[..k]
    ensures Represents(AppendAll(l, o[k..]), o)
  {
    hide Represents;
    AppendRepresents(l, h, o[k..]);
    assert h + o[k..] == o;
  }

  /** A merge cuts only where the logs truly differ. */
  lemma {:induction false} CutsAtConflict(a: P.System, l: Log, h: seq<Entry>, o: seq<Entry>, prev: nat, i: nat)
    requires P.Traced(a, h) && P.Traced(a, o) && Represents(l, h)
    requires l.base <= prev <= |o| && i <= |o| - prev && prev + i <= |h| && h[..prev + i] == o[..prev + i]
    ensures var cut := ConflictAt(l, prev, o[prev..], i);
            cut.Some? ==> cut.value > prev && Q.Conflict(h, o, cut.value - 1)
    decreases |o| - prev - i
  {
    hide P.Traced, Represents;
    var k := prev + i;
    QueriesAgree(l, h);
    BaseInLog(l, h);
    if k < |o| && k < |h| {
      DropDrop(o, prev, i);
      if h[k].term == o[k].term {
        P.LogMatching(a, h, o, k + 1);
        CutsAtConflict(a, l, h, o, prev, i + 1);
      }
    }
  }

  lemma {:induction false} MergeKeepsBase(l: Log, prev: nat, es: seq<Entry>, i: nat)
    requires i <= |es|
    ensures var m := Merge(l, prev, es, i); m.base == l.base && m.baseTerm == l.baseTerm && m.image == l.image
    decreases |es| - i
  {
    if i < |es| && prev + 1 + i <= LastIndex(l) && TermAt(l, prev + 1 + i) == es[i].term {
      MergeKeepsBase(l, prev, es, i + 1);
    }
  }

  lemma TracedReplica(c0: Config, a: P.System, images: Images, v: Id, o: P.Offer)
    requires World(c0, a, images) && v in a.replicas && o in a.offers
    ensures P.Traced(a, a.replicas[v].log) && P.Traced(a, o.log) && Plain(o.log)
    ensures o.term in a.tenures && o.log <= a.tenures[o.term].log
  {
    hide P.RolesOk, P.GrantsOk, P.CandidatesOk, P.AcksOk, P.AcksKept, P.GrantsKept, P.Complete;
    assert P.ReplicaOk(a, a.replicas[v]);
    assert P.OfferOk(a, o);
    assert P.TenureOk(a, o.term, a.tenures[o.term]);
    Q.TracedPrefix(a, o.log, a.tenures[o.term].log);
    forall i | 0 <= i < |o.log| ensures IsPlain(o.log[i].command) {
      assert o.log[i] == a.tenures[o.term].log[i];
    }
  }

  lemma AcceptMoves(c0: Config, a: P.System, images: Images, v: Id, o: P.Offer)
    requires World(c0, a, images) && v in a.replicas && o in a.offers && o.term == a.replicas[v].term
    ensures Moves(c0, a, images, Q.Accept(a, v, o), v)
    ensures o.log <= Q.Accept(a, v, o).replicas[v].log
  {
    hide P.Inv;
    Q.AcceptKeeps(a, v, o);
    MovesIf(c0, a, images, Q.Accept(a, v, o), v);
  }

  lemma CutMoves(c0: Config, a: P.System, images: Images, v: Id, o: P.Offer, j: nat)
    requires World(c0, a, images) && v in a.replicas && o in a.offers && o.term == a.replicas[v].term
    requires Q.Conflict(a.replicas[v].log, o.log, j)
    ensures Moves(c0, a, images, Q.Cut(a, v, j), v) && a.replicas[v].commit <= j
  {
    hide P.Inv;
    Q.CutKeeps(a, v, o, j);
    MovesIf(c0, a, images, Q.Cut(a, v, j), v);
  }

  /** A log that keeps the committed prefix, on a disk whose snapshot is unchanged. */
  lemma ReloggedStored<S>(env: Env<S>, c0: Config, r: P.Replica, d: Disk, log: seq<Entry>, l: Log)
    requires Stored(env, c0, r, d) && Represents(l, log) && Plain(log)
    requires l.base == d.log.base && l.image == d.log.image
    requires r.commit <= |log| && log[..r.commit] == r.log[..r.commit]
    ensures Stored(env, c0, r.(role := Follower, log := log), d.(log := l))
  {
    hide ImageOk, Fold;
    assert log[..l.base] == log[..r.commit][..l.base];
    assert r.log[..l.base] == r.log[..r.commit][..l.base];
  }

  lemma CutStored<S>(env: Env<S>, c0: Config, r: P.Replica, d: Disk, j: nat)
    requires Stored(env, c0, r, d) && r.commit <= j < |r.log|
    ensures Stored(env, c0, r.(role := Follower, log := r.log[..j]), d.(log := TruncateFrom(d.log, j + 1)))
  {
    hide ImageOk, Fold;
    TruncateRepresents(d.log, r.log, j + 1);
    PlainPrefix(r.log, j);
    assert r.log[..j][..r.commit] == r.log[..r.commit];
    ReloggedStored(env, c0, r, d, r.log[..j], TruncateFrom(d.log, j + 1));
  }

  lemma CommittedStays(c0: Config, a: P.System, images: Images, v: Id, o: P.Offer)
    requires World(c0, a, images) && v in a.replicas && o in a.offers && o.term == a.replicas[v].term
    ensures var r := a.replicas[v]; var log := Q.Adopted(r.log, o.log);
            r.commit <= |r.log| && r.commit <= |log| && log[..r.commit] == r.log[..r.commit]
  {
    hide P.TenuresOk, P.RolesOk, P.GrantsOk, P.CandidatesOk, P.AcksOk, P.AcksKept, P.GrantsKept, P.Complete, Plain,
         P.ReplicaOk, P.OfferOk;
    assert P.ReplicaOk(a, a.replicas[v]) && P.OfferOk(a, o);
    AdoptionKeepsCommitted(a, a.replicas[v], o);
  }

  lemma AdoptionKeepsCommitted(a: P.System, r: P.Replica, o: P.Offer)
    requires P.Complete(a) && P.ReplicaOk(a, r) && P.OfferOk(a, o) && o.term == r.term
    ensures var log := Q.Adopted(r.log, o.log);
            r.commit <= |r.log| && r.commit <= |log| && log[..r.commit] == r.log[..r.commit]
  {
    hide P.Complete, P.Traced, P.Committed;
    P.CommittedInTenure(a, r.log[..r.commit], r.term, o.term);
    Q.AdoptedKeepsPrefix(r.log, o.log, a.tenures[o.term].log, r.log[..r.commit]);
  }

  /** The merge, write by write. */
  lemma MergeSim<S>(env: Env<S>, c0: Config, a: P.System, images: Images, v: Id, n: Node<S>, o: P.Offer, prev: nat)
    returns (a': P.System)
    requires World(c0, a, images) && NodeOk(env, c0, a, images, v, n) && n.role == Follower
    requires o in a.offers && o.term == n.term && n.disk.log.base <= prev <= |o.log|
    requires prev <= |a.replicas[v].log| && a.replicas[v].log[..prev] == o.log[..prev]
    ensures Simulates(env, c0, a, images, a', v, n, MergeNode(n, prev, o.log[prev..]))
    ensures o in a'.offers && o.log <= a'.replicas[v].log && a'.replicas[v].commit == n.commit
    ensures P.Acked(a', v, n.term, |o.log|)
  {
    hide World, Moves, ImageOk, Fold, Plain, Streaming, Bootable, Merge, ConflictAt, P.Traced, Represents, TruncateFrom;
    var r := a.replicas[v];
    var l := n.disk.log;
    var es := o.log[prev..];
    TracedReplica(c0, a, images, v, o);
    MergeAdopts(a, l, r.log, o.log, prev, 0);
    MergeKeepsBase(l, prev, es, 0);
    CommittedStays(c0, a, images, v, o);
    a' := Q.Accept(a, v, o);
    AcceptMoves(c0, a, images, v, o);
    MovesLater(c0, a, images, a', v);
    assert P.Ack(v, o.term, |o.log|) in a'.acks;
    var n' := MergeNode(n, prev, es);
    ReloggedStored(env, c0, r, n.disk, Q.Adopted(r.log, o.log), Merge(l, prev, es, 0));
    MergeWrites(env, c0, a, images, a', v, n, o, prev);
    MergeFields(n, prev, es);
    RelogLive(env, c0, r, n, n', Q.Adopted(r.log, o.log));
    FollowerOffice(env, c0, a, images, v, n, n', a');
  }

  lemma RelogLive<S>(env: Env<S>, c0: Config, r: P.Replica, n: Node<S>, n': Node<S>, log: seq<Entry>)
    requires Live(env, c0, r, n) && n.role == Follower && n' == n.(disk := n'.disk, trail := n'.trail)
    requires r.commit <= |log| && log[..r.commit] == r.log[..r.commit]
    ensures Live(env, c0, r.(role := Follower, log := log), n')
  {
  }

  lemma MergeFields<S>(n: Node<S>, prev: nat, es: seq<Entry>)
    ensures var n' := MergeNode(n, prev, es);
            && n' == n.(disk := n'.disk, trail := n'.trail)
            && n'.disk == n.disk.(log := Merge(n.disk.log, prev, es, 0))
  {
    hide Merge, ConflictAt, TruncateFrom;
    var l := n.disk.log;
    var cut := ConflictAt(l, prev, es, 0);
    var m := if cut == None then n else PersistLog(n, TruncateFrom(l, cut.value));
    var merged := Merge(l, prev, es, 0);
    assert m == n.(disk := m.disk, trail := m.trail) && m.disk == n.disk.(log := m.disk.log);
    if merged == m.disk.log {
      assert MergeNode(n, prev, es) == m;
    } else {
      assert MergeNode(n, prev, es) == PersistLog(m, merged);
    }
  }

  lemma MergeWrites<S>(
    env: Env<S>, c0: Config, a: P.System, images: Images, a': P.System, v: Id, n: Node<S>, o: P.Offer, prev: nat)
    requires World(c0, a, images) && NodeOk(env, c0, a, images, v, n)
    requires o in a.offers && o.term == n.term && n.disk.log.base <= prev <= |o.log|
    requires prev <= |a.replicas[v].log| && a.replicas[v].log[..prev] == o.log[..prev]
    requires Moves(c0, a, images, a', v) && v in a'.replicas
    requires Stored(env, c0, a'.replicas[v], n.disk.(log := Merge(n.disk.log, prev, o.log[prev..], 0)))
    ensures Written(env, c0, a, images, v, n.trail, MergeNode(n, prev, o.log[prev..]).trail)
  {
    hide World, Moves, Stored, NodeOk, Written, Merge, ConflictAt;
    var l := n.disk.log;
    var es := o.log[prev..];
    var merged := n.disk.(log := Merge(l, prev, es, 0));
    var cut := ConflictAt(l, prev, es, 0);
    NothingWritten(env, c0, a, images, v, n.trail);
    if cut == None {
      WrittenOne(env, c0, a, images, a', v, n.trail, merged);
    } else {
      var d := n.disk.(log := TruncateFrom(l, cut.value));
      CutWritten(env, c0, a, images, v, n, o, prev);
      WrittenOne(env, c0, a, images, a', v, n.trail + [d], merged);
      WrittenAppend(env, c0, a, images, v, n.trail, d, merged);
    }
  }

  /** Between the cut and the append, the disk holds a log that lost nothing committed. */
  lemma CutWritten<S>(env: Env<S>, c0: Config, a: P.System, images: Images, v: Id, n: Node<S>, o: P.Offer, prev: nat)
    requires World(c0, a, images) && NodeOk(env, c0, a, images, v, n)
    requires o in a.offers && o.term == n.term && n.disk.log.base <= prev <= |o.log|
    requires prev <= |a.replicas[v].log| && a.replicas[v].log[..prev] == o.log[..prev]
    requires ConflictAt(n.disk.log, prev, o.log[prev..], 0).Some?
    ensures var cut := ConflictAt(n.disk.log, prev, o.log[prev..], 0).value;
            Written(env, c0, a, images, v, n.trail, n.trail + [n.disk.(log := TruncateFrom(n.disk.log, cut))])
  {
    hide World, Moves, Stored, Office, Written, ConflictAt, P.Traced, TruncateFrom, Represents, Live;
    var r := a.replicas[v];
    var j := ConflictAt(n.disk.log, prev, o.log[prev..], 0).value - 1;
    NodeFacts(env, c0, a, images, v, n);
    StoredPlain(env, c0, r, n.disk);
    TracedReplica(c0, a, images, v, o);
    CutsAtConflict(a, n.disk.log, r.log, o.log, prev, 0);
    CutMoves(c0, a, images, v, o, j);
    CutStored(env, c0, r, n.disk, j);
    WrittenOne(env, c0, a, images, Q.Cut(a, v, j), v, n.trail, n.disk.(log := TruncateFrom(n.disk.log, j + 1)));
  }

  // ---------------------------------------------------------------- append requests

  ghost predicate Acknowledges(a: P.System, reply: AppendReply) {
    reply.success ==> P.Acked(a, reply.peer, reply.term, reply.matchIndex)
  }

  lemma LearnMoves(c0: Config, a: P.System, images: Images, v: Id, o: P.Offer, c: nat)
    requires World(c0, a, images) && v in a.replicas && o in a.offers && o.term == a.replicas[v].term
    requires o.log <= a.replicas[v].log && c <= o.commit && c <= |o.log|
    ensures Moves(c0, a, images, Q.SetCommit(a, v, c), v)
  {
    hide P.Inv;
    Q.LearnKeeps(a, v, o, c);
    MovesIf(c0, a, images, Q.SetCommit(a, v, c), v);
  }

  /** Learn a commit index from an offer that the log already holds. */
  lemma LearnSim<S(!new)>(env: Env<S>, c0: Config, a: P.System, images: Images, v: Id, n: Node<S>, o: P.Offer, c: nat)
    returns (a': P.System)
    requires Setting(env, c0) && World(c0, a, images) && NodeOk(env, c0, a, images, v, n)
    requires o in a.offers && o.term == n.term && o.log <= a.replicas[v].log && c <= o.commit && c <= |o.log|
    ensures Simulates(env, c0, a, images, a', v, n, if c > n.commit then ApplyCommitted(env, n.(commit := c)) else n)
  {
    hide Setting, World, NodeOk, Simulates, ApplyCommitted, Moves;
    IdleSim(env, c0, a, images, v, n);
    NodeFacts(env, c0, a, images, v, n);
    a' := a;
    if c > n.commit {
      LearnMoves(c0, a, images, v, o, c);
      CommitSim(env, c0, a, images, v, n, c);
      a' := Q.SetCommit(a, v, c);
    }
  }

  lemma Agrees(c0: Config, a: P.System, images: Images, v: Id, l: Log, o: P.Offer, prev: nat)
    requires World(c0, a, images) && v in a.replicas && o in a.offers && Represents(l, a.replicas[v].log)
    requires l.base <= prev <= |o.log| && prev <= LastIndex(l)
    requires prev == 0 || TermAt(l, prev) == TermOf(o.log, prev)
    ensures prev <= |a.replicas[v].log| && a.replicas[v].log[..prev] == o.log[..prev]
  {
    hide World, P.Traced;
    TracedReplica(c0, a, images, v, o);
    QueriesAgree(l, a.replicas[v].log);
    P.LogMatching(a, a.replicas[v].log, o.log, prev);
  }

  lemma ReplicateSim<S(!new)>(
    env: Env<S>, c0: Config, a: P.System, images: Images, v: Id, n: Node<S>, o: P.Offer, prev: nat)
    returns (a': P.System)
    requires Setting(env, c0) && World(c0, a, images) && NodeOk(env, c0, a, images, v, n) && n.role == Follower
    requires o in a.offers && o.term == n.term && n.disk.log.base <= prev <= |o.log|
    ensures var r := Replicate(env, n, prev, TermOf(o.log, prev), o.log[prev..], o.commit);
            Simulates(env, c0, a, images, a', v, n, r.0) && Acknowledges(a', r.1)
  {
    hide Setting, World, NodeOk, Simulates, ApplyCommitted, MergeNode, P.Acked, Represents;
    var l := n.disk.log;
    IdleSim(env, c0, a, images, v, n);
    NodeFacts(env, c0, a, images, v, n);
    StoredLog(env, c0, a, images, v, n);
    a' := a;
    if prev <= LastIndex(l) && (prev == 0 || TermAt(l, prev) == TermOf(o.log, prev)) {
      Agrees(c0, a, images, v, l, o, prev);
      var m := MergeNode(n, prev, o.log[prev..]);
      MergeFields(n, prev, o.log[prev..]);
      a' := MergeLearnSim(env, c0, a, images, v, n, o, prev);
    }
  }

  lemma StoredLog<S>(env: Env<S>, c0: Config, a: P.System, images: Images, v: Id, n: Node<S>)
    requires NodeOk(env, c0, a, images, v, n)
    ensures v in a.replicas && Represents(n.disk.log, a.replicas[v].log) && n.disk.log.base <= n.commit
  {
    hide Represents, Office, Plain, ImageOk, Fold;
  }

  lemma MergeLearnSim<S(!new)>(
    env: Env<S>, c0: Config, a: P.System, images: Images, v: Id, n: Node<S>, o: P.Offer, prev: nat)
    returns (a': P.System)
    requires Setting(env, c0) && World(c0, a, images) && NodeOk(env, c0, a, images, v, n) && n.role == Follower
    requires o in a.offers && o.term == n.term && n.disk.log.base <= prev <= |o.log|
    requires prev <= |a.replicas[v].log| && a.replicas[v].log[..prev] == o.log[..prev]
    ensures var m := MergeNode(n, prev, o.log[prev..]);
            var c := Min(o.commit, |o.log|);
            Simulates(env, c0, a, images, a', v, n, if c > m.commit then ApplyCommitted(env, m.(commit := c)) else m)
    ensures P.Acked(a', v, n.term, |o.log|)
  {
    hide Setting, World, NodeOk, Simulates, ApplyCommitted, MergeNode, P.Acked;
    var m := MergeNode(n, prev, o.log[prev..]);
    var b := MergeSim(env, c0, a, images, v, n, o, prev);
    MergeFields(n, prev, o.log[prev..]);
    var c := Min(o.commit, |o.log|);
    SimulatesNode(env, c0, a, images, b, v, n, m);
    NodeFacts(env, c0, b, images, v, m);
    a' := LearnSim(env, c0, b, images, v, m, o, c);
    var k := if c > m.commit then ApplyCommitted(env, m.(commit := c)) else m;
    SimulatesNode(env, c0, b, images, a', v, m, k);
    P.AckedPersists(b, a', v, n.term, |o.log|);
    SimulatesTrans(env, c0, a, images, b, a', v, n, m, k);
  }

  lemma AckMoves(c0: Config, a: P.System, images: Images, v: Id, k: nat)
    requires World(c0, a, images) && v in a.replicas && a.replicas[v].term in a.tenures && k <= a.replicas[v].commit
    ensures Moves(c0, a, images, Q.AckCommitted(a, v, k), v)
  {
    hide P.Inv;
    Q.AckCommittedKeeps(a, v, k);
    MovesIf(c0, a, images, Q.AckCommitted(a, v, k), v);
  }

  /** Acknowledging what is committed, without reading the request any further. */
  lemma AckSim<S>(env: Env<S>, c0: Config, a: P.System, images: Images, v: Id, n: Node<S>, k: nat)
    returns (a': P.System)
    requires World(c0, a, images) && NodeOk(env, c0, a, images, v, n)
    requires n.term in a.tenures && k <= n.commit
    ensures Simulates(env, c0, a, images, a', v, n, n) && P.Acked(a', v, n.term, k)
  {
    hide World, Moves, Stored, Live, Office;
    NodeFacts(env, c0, a, images, v, n);
    a' := Q.AckCommitted(a, v, k);
    AckMoves(c0, a, images, v, k);
    MovesLater(c0, a, images, a', v);
    OfficeLog(env, c0, a, images, v, a.replicas[v], n);
    NodePersists(env, c0, a, images, a', images, v, n);
    NothingWritten(env, c0, a, images, v, n.trail);
    assert P.Ack(v, n.term, k) in a'.acks;
  }

  lemma AppendBodySim<S(!new)>(
    env: Env<S>, c0: Config, a: P.System, images: Images, v: Id, n: Node<S>, req: AppendRequest)
    returns (a': P.System)
    requires Setting(env, c0) && World(c0, a, images) && NodeOk(env, c0, a, images, v, n) && n.role == Follower
    requires n.term == req.term && exists o :: Offered(a, o, req)
    ensures var r := AppendBody(env, n, req);
            Simulates(env, c0, a, images, a', v, n, r.0) && Acknowledges(a', r.1)
  {
    hide Setting, World, Stored, Live, Office, Simulates, Replicate, P.Acked, Represents;
    var o :| Offered(a, o, req);
    var l := n.disk.log;
    NodeFacts(env, c0, a, images, v, n);
    StoredPlain(env, c0, a.replicas[v], n.disk);
    TracedReplica(c0, a, images, v, o);
    IdleSim(env, c0, a, images, v, n);
    a' := a;
    if req.prevIndex < l.base {
      var overlap := l.base - req.prevIndex;
      if |req.entries| < overlap {
        a' := AckSim(env, c0, a, images, v, n, l.base);
      } else if req.entries[overlap - 1].term == l.baseTerm {
        assert req.entries[overlap..] == o.log[l.base..];
        assert req.entries[overlap - 1] == o.log[l.base - 1];
        a' := ReplicateSim(env, c0, a, images, v, n, o, l.base);
      }
    } else {
      a' := ReplicateSim(env, c0, a, images, v, n, o, req.prevIndex);
    }
  }

  lemma AppendSim<S(!new)>(
    env: Env<S>, c0: Config, a: P.System, images: Images, v: Id, n: Node<S>, req: AppendRequest)
    returns (a': P.System)
    requires Setting(env, c0) && World(c0, a, images) && NodeOk(env, c0, a, images, v, n)
    requires exists o :: Offered(a, o, req)
    ensures var r := HandleAppend(env, n, req);
            Simulates(env, c0, a, images, a', v, n, r.0) && Acknowledges(a', r.1)
  {
    hide Setting, World, NodeOk, Written, Follow, AppendBody, Refuses;
    IdleSim(env, c0, a, images, v, n);
    a' := a;
    if n.term <= req.term && !Refuses(n, req.term, req.leader) {
      var m := Follow(n, req.term, req.leader);
      var b := FollowSim(env, c0, a, images, v, n, req.term, req.leader);
      MovesLater(c0, a, images, b, v);
      var o :| Offered(a, o, req);
      assert Offered(b, o, req);
      a' := AppendBodySim(env, c0, b, images, v, m, req);
      SimulatesTrans(env, c0, a, images, b, a', v, n, m, AppendBody(env, m, req).0);
    }
  }

  // ---------------------------------------------------------------- snapshot chunks

  ghost predicate Confirms(a: P.System, reply: ChunkReply) {
    reply.success && reply.done ==> P.Acked(a, reply.peer, reply.term, reply.lastIndex)
  }

  /** A follower may hold any stream whose bytes the leader sent. */
  lemma PendingSim<S>(env: Env<S>, c0: Config, a: P.System, images: Images, v: Id, n: Node<S>, n': Node<S>)
    requires World(c0, a, images) && NodeOk(env, c0, a, images, v, n) && n.role == Follower
    requires n' == n.(pending := n'.pending)
    requires n'.pending.Some? ==> Streaming(env, c0, a, images, n'.pending.value)
    ensures Simulates(env, c0, a, images, a, v, n, n')
  {
    hide World, Stored, Streaming;
    Stays(c0, a, images, v);
    NothingWritten(env, c0, a, images, v, n.trail);
  }

  /** The log that an installed snapshot leaves behind. */
  lemma InstallRepresents(a: P.System, l: Log, h: seq<Entry>, p: seq<Entry>, image: Bytes)
    requires P.Traced(a, h) && P.Traced(a, p) && Represents(l, h) && l.base < |p|
    ensures Represents(InstallSnapshot(l, |p|, TermOf(p, |p|), image), Q.Adopted(h, p))
  {
    hide P.Traced;
    if |p| <= |h| && TermOf(h, |p|) == TermOf(p, |p|) {
      P.LogMatching(a, h, p, |p|);
      assert p == p[..|p|];
      CompactRepresents(l, h, |p|, image);
    } else {
      ReplaceRepresents(l, h, p, image);
    }
  }

  /** What the node is after a complete stream, when nothing but the membership it already has is named. */
  lemma InstalledNode<S>(env: Env<S>, c0: Config, n: Node<S>, p: Pending, s: S)
    requires SafeConfig(c0) && ImageOk(env.app, c0, s, p.data) && n.disk.admission == None && n.joiningFrom == None
    ensures var r := InstallStream(env, n, p);
            && r.1 == ChunkReply(n.me, n.term, true, p.lastIndex, p.offset, true)
            && r.0.disk == n.disk.(log := InstallSnapshot(n.disk.log, p.lastIndex, p.lastTerm, p.data))
            && (r.0.trail == n.trail + [r.0.disk] || r.0.trail == n.trail + [r.0.disk] + [r.0.disk])
            && r.0.commit == p.lastIndex && r.0.applied == p.lastIndex && r.0.machine == s
            && r.0.config == c0 && r.0.snapConfig == c0
            && r.0.me == n.me && r.0.role == n.role && r.0.term == n.term && r.0.vote == n.vote
            && r.0.joiningFrom == None && r.0.joiners == n.joiners && r.0.pending == None
  {
    hide AdoptEnvelope, Installed, InstallStream, InstallSnapshot;
    var e := SnapshotCodec.Decode(p.data).value;
    var m := Installed(n, p, s);
    InstallsAs(env, c0, n, p, s);
    InstalledFields(n, p, s);
    AdoptedFields(m, e, p.lastIndex, c0);
  }

  /** An image that restores is installed whole. */
  lemma InstallsAs<S>(env: Env<S>, c: Config, n: Node<S>, p: Pending, s: S)
    requires SafeConfig(c) && ImageOk(env.app, c, s, p.data)
    ensures var e := SnapshotCodec.Decode(p.data).value;
            && e.current != [] && EnvelopeConfig(e) == c
            && InstallStream(env, n, p) == (AdoptEnvelope(Installed(n, p, s), e, p.lastIndex).(pending := None),
                                            ChunkReply(n.me, n.term, true, p.lastIndex, p.offset, true))
  {
    hide SnapshotCodec.Decode, AdoptEnvelope, Installed, EnvelopeConfig, Listing, SafeConfig;
    EnvelopeNames(c, SnapshotCodec.Decode(p.data).value);
  }

  lemma InstalledFields<S>(n: Node<S>, p: Pending, s: S)
    ensures var m := Installed(n, p, s);
            && m == n.(commit := p.lastIndex, applied := p.lastIndex, machine := s, disk := m.disk, trail := m.trail)
            && m.disk == n.disk.(log := InstallSnapshot(n.disk.log, p.lastIndex, p.lastTerm, p.data))
            && m.trail == n.trail + [m.disk]
  {
    hide InstallSnapshot;
  }

  lemma AdoptedFields<S>(n: Node<S>, e: SnapshotCodec.Envelope, index: nat, c: Config)
    requires e.current != [] && EnvelopeConfig(e) == c
    ensures var r := AdoptEnvelope(n, e, index);
            && r.me == n.me && r.role == n.role && r.term == n.term && r.vote == n.vote && r.joiners == n.joiners
            && r.commit == n.commit && r.applied == n.applied && r.machine == n.machine
            && r.config == c && r.snapConfig == c
            && (r.disk == n.disk.(admission := None) || r.disk == n.disk)
            && (r.trail == n.trail + [r.disk] || (r.trail == n.trail && r.disk == n.disk))
            && (r.joiningFrom == None || r.joiningFrom == n.joiningFrom)
  {
    hide EnvelopeConfig, Listing, Contains, IsJoint, IdsOf;
  }

  lemma InstalledStored<S>(env: Env<S>, c0: Config, r: P.Replica, d: Disk, log: seq<Entry>, k: nat, l: Log)
    requires Stored(env, c0, r, d) && Represents(l, log) && Plain(log) && l.base == k <= |log|
    requires ImageOk(env.app, c0, Fold(env.app, log[..k]), l.image)
    ensures Stored(env, c0, r.(role := Follower, log := log, commit := k), d.(log := l))
  {
    hide ImageOk, Fold;
  }

  lemma InstallSim<S(!new)>(env: Env<S>, c0: Config, a: P.System, images: Images, v: Id, n: Node<S>, p: Pending)
    returns (a': P.System)
    requires Setting(env, c0) && World(c0, a, images) && NodeOk(env, c0, a, images, v, n) && n.role == Follower
    requires Vouched(env, c0, a, images, p.term, p.lastIndex, p.lastTerm) && p.data == images[(p.term, p.lastIndex)]
    requires p.term == n.term && n.commit < p.lastIndex
    ensures var r := InstallStream(env, n, p);
            Simulates(env, c0, a, images, a', v, n, r.0) && Confirms(a', r.1)
  {
    hide Lawful, SafeConfig, World, Moves, Fold, ImageOk, Plain, Bootable, InstallStream, InstallSnapshot, Represents,
         P.Traced, Streaming;
    var r := a.replicas[v];
    var log := a.tenures[p.term].log[..p.lastIndex];
    var o := P.Offer(p.term, log, p.lastIndex);
    TracedReplica(c0, a, images, v, o);
    InstallRepresents(a, n.disk.log, r.log, log, p.data);
    var log' := Q.Adopted(r.log, log);
    var b := Q.Accept(a, v, o);
    AcceptMoves(c0, a, images, v, o);
    MovesLater(c0, a, images, b, v);
    LearnMoves(c0, b, images, v, o, p.lastIndex);
    a' := Q.SetCommit(b, v, p.lastIndex);
    MovesLater(c0, b, images, a', v);
    MovesTrans(c0, a, images, b, a', v);
    assert log'[..p.lastIndex] == log;
    var l := InstallSnapshot(n.disk.log, p.lastIndex, p.lastTerm, p.data);
    InstallBase(n.disk.log, p.lastIndex, p.lastTerm, p.data);
    InstalledStored(env, c0, r, n.disk, log', p.lastIndex, l);
    InstalledNode(env, c0, n, p, Fold(env.app, log));
    var n' := InstallStream(env, n, p).0;
    FollowerOffice(env, c0, a, images, v, n, n', a');
    assert P.Ack(v, o.term, |o.log|) in a'.acks;
    WrittenOne(env, c0, a, images, a', v, n.trail, n'.disk);
    WrittenOne(env, c0, a, images, a', v, n.trail + [n'.disk], n'.disk);
    WrittenAppend(env, c0, a, images, v, n.trail, n'.disk, n'.disk);
  }

  lemma InstallBase(l: Log, index: nat, term: nat, image: Bytes)
    ensures InstallSnapshot(l, index, term, image).base == index && InstallSnapshot(l, index, term, image).image == image
  {
  }

  /** Accepting one chunk extends the same image. */
  lemma ChunkExtends<S>(env: Env<S>, c0: Config, a: P.System, images: Images, p: Pending, req: Chunk)
    requires Streaming(env, c0, a, images, p) && ChunkOk(env, c0, a, images, req) && Continues(p, req)
    ensures var q := p.(offset := p.offset + |req.data|, data := p.data + req.data);
            Streaming(env, c0, a, images, q) && (req.done ==> q.data == images[(q.term, q.lastIndex)])
  {
    hide ImageOk, Fold;
    var image := images[(p.term, p.lastIndex)];
    assert p.data == image[..p.offset];
    assert p.data + req.data == image[..p.offset + |req.data|];
  }

  lemma StreamSim<S>(env: Env<S>, c0: Config, a: P.System, images: Images, v: Id, n: Node<S>, req: Chunk)
    requires World(c0, a, images) && NodeOk(env, c0, a, images, v, n) && n.role == Follower
    requires ChunkOk(env, c0, a, images, req)
    ensures StreamFor(n, req).Some? ==> Streaming(env, c0, a, images, StreamFor(n, req).value)
  {
    hide World, Stored, Live, Vouched, Leading, Canvassing;
  }

  lemma ReceiveSim<S(!new)>(env: Env<S>, c0: Config, a: P.System, images: Images, v: Id, n: Node<S>, req: Chunk)
    returns (a': P.System)
    requires Setting(env, c0) && World(c0, a, images) && NodeOk(env, c0, a, images, v, n) && n.role == Follower
    requires ChunkOk(env, c0, a, images, req) && req.term == n.term && n.commit < req.lastIndex
    ensures var r := ReceiveChunk(env, n, req);
            Simulates(env, c0, a, images, a', v, n, r.0) && Confirms(a', r.1)
  {
    hide Setting, World, NodeOk, Written, Moves, InstallStream, StreamFor, Vouched;
    var s := StreamFor(n, req);
    StreamSim(env, c0, a, images, v, n, req);
    a' := a;
    PendingSim(env, c0, a, images, v, n, n.(pending := None));
    PendingSim(env, c0, a, images, v, n, n.(pending := s));
    if s.Some? && Continues(s.value, req) && |s.value.data| + |req.data| <= MAX_SNAPSHOT_BYTES {
      var q := s.value.(offset := s.value.offset + |req.data|, data := s.value.data + req.data);
      ChunkExtends(env, c0, a, images, s.value, req);
      var m := n.(pending := Some(q));
      PendingSim(env, c0, a, images, v, n, m);
      if req.done {
        a' := InstallSim(env, c0, a, images, v, m, q);
        SameTrail(env, c0, a, images, a', v, m, n, InstallStream(env, m, q).0);
      }
    }
  }

  lemma ChunkSim<S(!new)>(env: Env<S>, c0: Config, a: P.System, images: Images, v: Id, n: Node<S>, req: Chunk)
    returns (a': P.System)
    requires Setting(env, c0) && World(c0, a, images) && NodeOk(env, c0, a, images, v, n)
    requires ChunkOk(env, c0, a, images, req)
    ensures var r := HandleChunk(env, n, req);
            Simulates(env, c0, a, images, a', v, n, r.0) && Confirms(a', r.1)
  {
    hide Setting, World, NodeOk, Simulates, Follow, ReceiveChunk, Refuses, ChunkOk, P.Acked;
    IdleSim(env, c0, a, images, v, n);
    a' := a;
    if n.term <= req.term && !Refuses(n, req.term, req.leader) {
      var m := Follow(n, req.term, req.leader);
      var b := FollowSim(env, c0, a, images, v, n, req.term, req.leader);
      SimulatesNode(env, c0, a, images, b, v, n, m);
      ChunkPersists(env, c0, a, images, b, req);
      if req.lastIndex <= m.commit {
        a' := KnownChunkSim(env, c0, b, images, v, m, req);
        SimulatesTrans(env, c0, a, images, b, a', v, n, m, m.(pending := None));
      } else {
        a' := ReceiveSim(env, c0, b, images, v, m, req);
        SimulatesTrans(env, c0, a, images, b, a', v, n, m, ReceiveChunk(env, m, req).0);
      }
    }
  }

  lemma ChunkPersists<S>(env: Env<S>, c0: Config, a: P.System, images: Images, a': P.System, req: Chunk)
    requires P.Later(a, a') && ChunkOk(env, c0, a, images, req)
    ensures ChunkOk(env, c0, a', images, req)
  {
    hide ImageOk, Fold;
    VouchedPersists(env, c0, a, images, a', images, req.term, req.lastIndex, req.lastTerm);
  }

  /** A snapshot of what is already committed is acknowledged and dropped. */
  lemma KnownChunkSim<S>(env: Env<S>, c0: Config, a: P.System, images: Images, v: Id, n: Node<S>, req: Chunk)
    returns (a': P.System)
    requires World(c0, a, images) && NodeOk(env, c0, a, images, v, n) && n.role == Follower
    requires ChunkOk(env, c0, a, images, req) && req.term == n.term && req.lastIndex <= n.commit
    ensures Simulates(env, c0, a, images, a', v, n, n.(pending := None))
    ensures P.Acked(a', n.me, n.term, req.lastIndex)
  {
    hide World, NodeOk, Simulates, ImageOk, Fold, P.Acked;
    NodeFacts(env, c0, a, images, v, n);
    a' := AckSim(env, c0, a, images, v, n, req.lastIndex);
    SimulatesNode(env, c0, a, images, a', v, n, n);
    PendingSim(env, c0, a', images, v, n, n.(pending := None));
    SimulatesTrans(env, c0, a, images, a', a', v, n, n, n.(pending := None));
  }

  // ---------------------------------------------------------------- restarting

  /** A disk of a reached state starts a follower that has applied its snapshot and no more. */
  lemma BootsAs<S(!new)>(env: Env<S>, c0: Config, r: P.Replica, d: Disk, v: Id)
    requires Setting(env, c0) && Stored(env, c0, r, d)
    ensures Boot(env, v, c0, d).Some?
    ensures var n := Boot(env, v, c0, d).value;
            && n.disk == d && n.me == v && n.role == Follower && n.pending == None && n.trail == [d]
            && Live(env, c0, r.(role := Follower, commit := d.log.base), n)
  {
    hide SnapshotCodec.Decode, EnvelopeConfig, Listing, Contains, IsJoint, SafeConfig, Represents, Effective, Lawful;
    if d.log.base > 0 {
      EnvelopeNames(c0, SnapshotCodec.Decode(d.log.image).value);
    }
  }

  lemma BootSim<S(!new)>(env: Env<S>, c0: Config, a: P.System, images: Images, v: Id, d: Disk)
    returns (a': P.System)
    requires Setting(env, c0) && World(c0, a, images) && v in a.replicas && Bootable(env, c0, a, images, v, d)
    ensures Moves(c0, a, images, a', v)
    ensures Boot(env, v, c0, d).Some? && NodeOk(env, c0, a', images, v, Boot(env, v, c0, d).value)
  {
    hide Setting, World, Moves, Boot, ImageOk, Fold, Represents, Plain;
    var b :| Moves(c0, a, images, b, v) && v in b.replicas && Stored(env, c0, b.replicas[v], d);
    BootsAs(env, c0, b.replicas[v], d, v);
    MovesLater(c0, a, images, b, v);
    a' := Q.Rest(b, v, d.log.base);
    RestMoves(c0, b, images, v, d.log.base);
    MovesTrans(c0, a, images, b, a', v);
  }
}
