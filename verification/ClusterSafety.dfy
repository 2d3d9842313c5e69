/** What holds over every run of a cluster with a fixed membership. */
module ClusterSafety {
  import opened Basics
  import opened RaftTypes
  import opened Membership
  import opened LogStore
  import opened Node
  import opened Handlers
  import opened Coherence
  import opened Cluster
  import opened Simulation
  import opened FollowerSimulation
  import opened ClusterSimulation
  import SnapshotCodec
  import P = Protocol

  // ---------------------------------------------------------------- whole runs

  /** Some leader once held this snapshot. */
  ghost predicate HeldOnce<S>(cs: seq<Cluster<S>>, key: (nat, nat), image: Bytes) {
    exists i, v :: 0 <= i < |cs| && v in cs[i].nodes && HoldsImage(cs[i].nodes[v], key, image)
  }

  ghost predicate Sourced<S>(cs: seq<Cluster<S>>, images: Images) {
    forall k :: k in images ==> HeldOnce(cs, k, images[k])
  }

  /** The protocol state that matches each cluster state, each later than the ones before. */
  ghost predicate Shadows<S>(
    env: Env<S>, c0: Config, cs: seq<Cluster<S>>, ps: seq<P.System>, ims: seq<Images>)
  {
    && |ps| == |cs| && |ims| == |cs|
    && (forall i :: 0 <= i < |cs| ==> Related(env, c0, cs[i], ps[i], ims[i]))
    && (forall i, j :: 0 <= i <= j < |cs| ==> P.Later(ps[i], ps[j]) && Extends(ims[i], ims[j]))
    && (forall i :: 0 <= i < |cs| ==> Sourced(cs[..i + 1], ims[i]) && Developed(cs[i], ims[i]))
  }

  /** The snapshot of every leader is among the images. */
  ghost predicate Developed<S>(c: Cluster<S>, images: Images) {
    forall v :: v in c.nodes ==> Pictured(c.nodes[v], images)
  }

  lemma SourcedGrows<S>(cs: seq<Cluster<S>>, c: Cluster<S>, images: Images, images': Images, images'': Images)
    requires cs != [] && Sourced(cs, images)
    requires Photographed(cs[|cs| - 1], images, images') && Photographed(c, images', images'')
    ensures Sourced(cs + [c], images'')
  {
    hide HoldsImage;
    var cs' := cs + [c];
    forall k | k in images'' ensures HeldOnce(cs', k, images''[k]) {
      if k in images {
        assert HeldOnce(cs, k, images[k]);
        var i, v :| 0 <= i < |cs| && v in cs[i].nodes && HoldsImage(cs[i].nodes[v], k, images[k]);
        assert cs'[i] == cs[i];
      } else if k in images' {
        var v :| v in cs[|cs| - 1].nodes && HoldsImage(cs[|cs| - 1].nodes[v], k, images'[k]);
        assert cs'[|cs| - 1] == cs[|cs| - 1];
      } else {
        var v :| v in c.nodes && HoldsImage(c.nodes[v], k, images''[k]);
        assert cs'[|cs|] == c;
      }
    }
  }

  lemma RunPrefix<S>(env: Env<S>, c0: Config, cs: seq<Cluster<S>>)
    requires Run(env, c0, cs) && |cs| > 1
    ensures Run(env, c0, cs[..|cs| - 1]) && Step(env, c0, cs[|cs| - 2], cs[|cs| - 1])
  {
    hide Initial, Step;
    var n := |cs| - 1;
    var xs := cs[..n];
    assert Step(env, c0, cs[n - 1], cs[n - 1 + 1]);
    forall i | 0 <= i < |xs| - 1 ensures Step(env, c0, xs[i], xs[i + 1]) {
      assert Step(env, c0, cs[i], cs[i + 1]);
    }
  }

  lemma {:induction false} RunShadowed<S(!new)>(env: Env<S>, c0: Config, cs: seq<Cluster<S>>)
    returns (ps: seq<P.System>, ims: seq<Images>)
    requires Setting(env, c0) && Run(env, c0, cs)
    ensures Shadows(env, c0, cs, ps, ims)
    decreases |cs|
  {
    hide Setting, Related, Initial, Step, Photographed, Sourced, Developed;
    if |cs| == 1 {
      InitialRelated(env, c0, cs[0]);
      ps, ims := [Origin(c0)], [map[]];
      SelfLater(Origin(c0));
      NothingSourced(cs[..1]);
      NobodyLeads(env, c0, cs[0]);
    } else {
      RunPrefix(env, c0, cs);
      var n := |cs| - 1;
      var xs := cs[..n];
      var bs, js := RunShadowed(env, c0, xs);
      var a, im := StepRelated(env, c0, cs[n - 1], cs[n], bs[n - 1], js[n - 1]);
      var im' := PhotographAll(env, c0, cs[n], a, im, cs[n].nodes.Keys);
      ps, ims := bs + [a], js + [im'];
      assert xs[..n] == xs;
      SourcedGrows(xs, cs[n], js[n - 1], im, im');
      AllPictured(cs[n], im');
      ExtendsBoth(cs[n - 1], cs[n], js[n - 1], im, im');
      ShadowsExtend(env, c0, xs, cs[n], bs, js, a, im');
      assert xs + [cs[n]] == cs;
    }
  }

  lemma AllPictured<S>(c: Cluster<S>, images: Images)
    requires forall v :: v in c.nodes.Keys ==> Pictured(c.nodes[v], images)
    ensures Developed(c, images)
  {
  }

  lemma ExtendsBoth<S>(c: Cluster<S>, c': Cluster<S>, a: Images, b: Images, d: Images)
    requires Photographed(c, a, b) && Photographed(c', b, d)
    ensures Extends(a, d)
  {
    hide HoldsImage;
  }

  lemma NothingSourced<S>(cs: seq<Cluster<S>>)
    ensures Sourced(cs, map[])
  {
  }

  lemma NobodyLeads<S(!new)>(env: Env<S>, c0: Config, c: Cluster<S>)
    requires Setting(env, c0) && Initial(env, c0, c)
    ensures Developed(c, map[])
  {
    hide Boot, Setting;
    forall v | v in c.nodes ensures Pictured(c.nodes[v], map[]) {
      assert Stored(env, c0, FRESH, BLANK);
      BootsAs(env, c0, FRESH, BLANK, v);
    }
  }

  lemma ShadowsExtend<S>(
    env: Env<S>, c0: Config, cs: seq<Cluster<S>>, c: Cluster<S>, ps: seq<P.System>, ims: seq<Images>,
    a: P.System, im: Images)
    requires cs != [] && Shadows(env, c0, cs, ps, ims) && Related(env, c0, c, a, im)
    requires P.Later(ps[|cs| - 1], a) && Sourced(cs + [c], im) && Developed(c, im) && Extends(ims[|cs| - 1], im)
    ensures Shadows(env, c0, cs + [c], ps + [a], ims + [im])
  {
    hide Related, Sourced, Developed, P.Later;
    var n := |cs|;
    var cs', bs, js := cs + [c], ps + [a], ims + [im];
    forall i, j | 0 <= i <= j < |cs'| ensures P.Later(bs[i], bs[j]) && Extends(js[i], js[j]) {
      if j == n {
        SelfLater(a);
        if i < n {
          P.LaterTrans(ps[i], ps[n - 1], a);
          ExtendsTrans(ims[i], ims[n - 1], im);
        }
      }
    }
    forall i | 0 <= i < |cs'|
      ensures Sourced(cs'[..i + 1], js[i]) && Developed(cs'[i], js[i]) && Related(env, c0, cs'[i], bs[i], js[i])
    {
      if i < n {
        assert cs'[..i + 1] == cs[..i + 1];
      } else {
        assert cs'[..i + 1] == cs';
      }
    }
  }

  lemma ExtendsTrans(a: Images, b: Images, c: Images)
    requires Extends(a, b) && Extends(b, c)
    ensures Extends(a, c)
  {
  }

  // ---------------------------------------------------------------- election safety

  /** No two nodes ever lead in the same term, at whatever two moments of a run. */
  lemma ElectionSafety<S(!new)>(env: Env<S>, c0: Config, cs: seq<Cluster<S>>, i: nat, j: nat, v: Id, w: Id)
    requires Setting(env, c0) && Run(env, c0, cs) && i <= j < |cs|
    requires v in cs[i].nodes && w in cs[j].nodes
    requires cs[i].nodes[v].role == Leader && cs[j].nodes[w].role == Leader
    requires cs[i].nodes[v].term == cs[j].nodes[w].term
    ensures v == w
  {
    hide Setting, Related, Run, Sourced;
    var ps, ims := RunShadowed(env, c0, cs);
    LeaderKnown(env, c0, cs[i], ps[i], ims[i], v);
    LeaderKnown(env, c0, cs[j], ps[j], ims[j], w);
    assert P.Later(ps[i], ps[j]);
  }

  lemma LeaderKnown<S>(env: Env<S>, c0: Config, c: Cluster<S>, a: P.System, images: Images, v: Id)
    requires Related(env, c0, c, a, images) && v in c.nodes && c.nodes[v].role == Leader
    ensures var n := c.nodes[v];
            v in a.replicas && a.replicas[v].role == Leader && a.replicas[v].term == n.term
            && n.term in a.tenures && a.tenures[n.term] == P.Tenure(v, a.replicas[v].log)
  {
    hide Related, World, NodeOk;
    RelatedNode(env, c0, c, a, images, v);
    NodeFacts(env, c0, a, images, v, c.nodes[v]);
    LeaderTenure(c0, a, images, v);
  }

  // ---------------------------------------------------------------- state-machine safety

  /** Everything the node has applied, and every entry it knows to be committed, is what `log` says. */
  ghost predicate Explains<S>(env: Env<S>, c0: Config, log: seq<Entry>, n: Node<S>) {
    && n.applied == n.commit <= |log|
    && n.machine == Fold(env.app, log[..n.applied])
    && n.disk.log.base <= n.commit
    && (forall k: nat :: n.disk.log.base < k <= n.commit ==> EntryAt(n.disk.log, k) == Some(log[k - 1]))
    && (n.disk.log.base > 0 ==> ImageOk(env.app, c0, Fold(env.app, log[..n.disk.log.base]), n.disk.log.image))
  }

  lemma ExplainedBy<S>(env: Env<S>, c0: Config, a: P.System, images: Images, v: Id, n: Node<S>, log: seq<Entry>)
    requires NodeOk(env, c0, a, images, v, n) && a.replicas[v].log[..n.commit] <= log
    ensures Explains(env, c0, log, n)
  {
    hide ImageOk, Fold, Plain, Office;
    var h := a.replicas[v].log;
    var base := n.disk.log.base;
    QueriesAgree(n.disk.log, h);
    assert log[..n.commit] == h[..n.commit];
    assert log[..base] == h[..n.commit][..base] == h[..base];
    forall k: nat | base < k <= n.commit ensures EntryAt(n.disk.log, k) == Some(log[k - 1]) {
      assert h[..n.commit][k - 1] == log[..n.commit][k - 1];
    }
  }

  lemma NewestTerm(ts: set<nat>) returns (top: nat)
    requires ts != {}
    ensures top in ts && forall t :: t in ts ==> t <= top
    decreases |ts|
  {
    top :| top in ts;
    if ts != {top} {
      var rest := ts - {top};
      assert ts == rest + {top};
      var next := NewestTerm(rest);
      if next > top {
        top := next;
      }
    }
  }

  ghost predicate Covers(a: P.System, log: seq<Entry>) {
    forall p, bound :: P.Committed(a, p, bound) ==> p <= log
  }

  /** The log of the newest leader holds everything that was ever committed. */
  lemma CommittedLog(a: P.System) returns (log: seq<Entry>)
    requires P.Inv(a)
    ensures Covers(a, log)
  {
    if a.tenures.Keys == {} {
      log := [];
      forall p, bound | P.Committed(a, p, bound) ensures p <= log {
      }
    } else {
      var top := NewestTerm(a.tenures.Keys);
      log := a.tenures[top].log;
      forall p, bound | P.Committed(a, p, bound) ensures p <= log {
        InNewest(a, top, p, bound);
      }
    }
  }

  lemma InNewest(a: P.System, top: nat, p: seq<Entry>, bound: nat)
    requires P.Inv(a) && top in a.tenures && (forall t :: t in a.tenures ==> t <= top) && P.Committed(a, p, bound)
    ensures p <= a.tenures[top].log
  {
    hide P.ReplicasOk, P.TenuresOk, P.RolesOk, P.GrantsOk, P.CandidatesOk, P.AcksOk, P.AcksKept, P.GrantsKept, P.OffersOk;
    if p != [] {
      var t: nat, k: nat :| t <= bound && P.Decided(a, t, k) && p <= a.tenures[t].log[..k];
      P.LeaderCompleteness(a, t, k, top);
    }
  }

  lemma CommittedByNode(c0: Config, a: P.System, images: Images, a': P.System, v: Id)
    requires World(c0, a, images) && P.Later(a, a') && v in a.replicas
    ensures var r := a.replicas[v]; r.commit <= |r.log| && P.Committed(a', r.log[..r.commit], r.term)
  {
    hide P.TenuresOk, P.RolesOk, P.GrantsOk, P.CandidatesOk, P.AcksOk, P.AcksKept, P.GrantsKept, P.Complete, P.OffersOk;
    var r := a.replicas[v];
    assert P.ReplicaOk(a, r);
    P.CommittedPersists(a, a', r.log[..r.commit], r.term, r.term);
  }

  lemma WorldInv(c0: Config, a: P.System, images: Images)
    requires World(c0, a, images)
    ensures P.Inv(a)
  {
    hide P.Inv;
  }

  /** Everything a shadowed run ever applied, by one log. */
  lemma ShadowExplains<S(!new)>(
    env: Env<S>, c0: Config, cs: seq<Cluster<S>>, ps: seq<P.System>, ims: seq<Images>, log: seq<Entry>, i: nat, v: Id)
    requires Shadows(env, c0, cs, ps, ims) && i < |cs| && v in cs[i].nodes
    requires Covers(ps[|cs| - 1], log)
    ensures Explains(env, c0, log, cs[i].nodes[v])
  {
    hide Related, Sourced, P.Committed, Explains, P.Later;
    RelatedNode(env, c0, cs[i], ps[i], ims[i], v);
    NodeFacts(env, c0, ps[i], ims[i], v, cs[i].nodes[v]);
    CommittedByNode(c0, ps[i], ims[i], ps[|cs| - 1], v);
    ExplainedBy(env, c0, ps[i], ims[i], v, cs[i].nodes[v], log);
  }

  /**
   * Section 5.4.3 of the Raft paper: one log explains what every node has applied at every moment
   * of a run, whatever was lost, repeated, reordered, compacted, installed or restarted.
   */
  lemma StateMachineSafety<S(!new)>(env: Env<S>, c0: Config, cs: seq<Cluster<S>>) returns (log: seq<Entry>)
    requires Setting(env, c0) && Run(env, c0, cs)
    ensures forall i, v :: 0 <= i < |cs| && v in cs[i].nodes ==> Explains(env, c0, log, cs[i].nodes[v])
  {
    hide Setting, Related, Initial, Step, Sourced, P.Inv, Covers, Explains;
    var ps, ims := RunShadowed(env, c0, cs);
    var n := |cs| - 1;
    RelatedWorld(env, c0, cs[n], ps[n], ims[n]);
    log := CommittedLog(ps[n]);
    forall i, v | 0 <= i < |cs| && v in cs[i].nodes ensures Explains(env, c0, log, cs[i].nodes[v]) {
      ShadowExplains(env, c0, cs, ps, ims, log, i, v);
    }
  }

  lemma RelatedWorld<S>(env: Env<S>, c0: Config, c: Cluster<S>, a: P.System, images: Images)
    requires Related(env, c0, c, a, images)
    ensures World(c0, a, images) && P.Inv(a)
  {
    hide P.Inv, NodeOk, BodyOk;
  }

  // ---------------------------------------------------------------- linearizable reads

  /** The index at which a read begun by this leader is fenced is the first one it has not written. */
  lemma FenceIsNew<S(!new)>(
    env: Env<S>, c0: Config, c: Cluster<S>, a: P.System, images: Images, v: Id, query: Bytes, token: nat)
    requires Related(env, c0, c, a, images) && v in c.nodes
    requires BeginRead(env, c.nodes[v], query, token).1.Ok?
    ensures var read := BeginRead(env, c.nodes[v], query, token).1.value;
            read.term in a.tenures && |a.tenures[read.term].log| < read.index
  {
    hide Related, NodeOk, World, AdvanceCommit, AppendOwn, IsVoter;
    LeaderKnown(env, c0, c, a, images, v);
    RelatedNode(env, c0, c, a, images, v);
    NodeFacts(env, c0, a, images, v, c.nodes[v]);
  }

  /** A query that is answered finds a position from the fence on decided in the fence's term. */
  lemma AnswerDecides<S>(
    env: Env<S>, c0: Config, c: Cluster<S>, a: P.System, images: Images, w: Id, read: PendingRead) returns (k: nat)
    requires Related(env, c0, c, a, images) && w in c.nodes && HandleQuery(env, c.nodes[w], read).Ok? && read.index > 0
    ensures read.index <= c.nodes[w].applied <= k && P.Decided(a, read.term, k)
  {
    hide Related, NodeOk, World, P.Inv, P.Decided, P.Committed;
    var n := c.nodes[w];
    RelatedNode(env, c0, c, a, images, w);
    NodeFacts(env, c0, a, images, w, n);
    AppliedIsCommitted(env, c0, a, images, w, n);
    var r := a.replicas[w];
    WorldInv(c0, a, images);
    SelfLater(a);
    CommittedByNode(c0, a, images, a, w);
    InvTenures(a);
    k := P.CommitOfOwnTerm(a, r.log, r.commit, r.term);
  }

  lemma InvTenures(a: P.System)
    requires P.Inv(a)
    ensures P.TenuresOk(a) && P.AcksOk(a) && P.Complete(a)
  {
    hide P.ReplicasOk, P.TenuresOk, P.RolesOk, P.GrantsOk, P.CandidatesOk, P.AcksOk, P.AcksKept, P.GrantsKept,
         P.Complete, P.OffersOk;
  }

  lemma AppliedIsCommitted<S>(env: Env<S>, c0: Config, a: P.System, images: Images, v: Id, n: Node<S>)
    requires NodeOk(env, c0, a, images, v, n)
    ensures n.applied == n.commit
    ensures 0 < n.commit ==> TermAt(n.disk.log, n.commit) == TermOf(a.replicas[v].log, n.commit)
  {
    hide ImageOk, Fold, Plain, Office;
    QueriesAgree(n.disk.log, a.replicas[v].log);
  }

  /** The fence of a read that is answered lies above whatever was applied before the read began. */
  lemma FencePassed<S(!new)>(
    env: Env<S>, c0: Config, cs: seq<Cluster<S>>, g: nat, i: nat, j: nat, u: Id, v: Id, w: Id, query: Bytes, token: nat)
    requires Setting(env, c0) && Run(env, c0, cs) && g <= i <= j < |cs|
    requires u in cs[g].nodes && v in cs[i].nodes && w in cs[j].nodes
    requires BeginRead(env, cs[i].nodes[v], query, token).1.Ok?
    requires HandleQuery(env, cs[j].nodes[w], BeginRead(env, cs[i].nodes[v], query, token).1.value).Ok?
    ensures var read := BeginRead(env, cs[i].nodes[v], query, token).1.value;
            cs[g].nodes[u].applied < read.index <= cs[j].nodes[w].applied
    ensures HandleQuery(env, cs[j].nodes[w], BeginRead(env, cs[i].nodes[v], query, token).1.value).value
            == env.app.query(cs[j].nodes[w].machine, query)
  {
    hide Setting, Related, Run, Sourced, P.Later, P.Decided, P.Committed, AdvanceCommit, AppendOwn, IsVoter, World, P.Inv;
    var ps, ims := RunShadowed(env, c0, cs);
    var read := BeginRead(env, cs[i].nodes[v], query, token).1.value;
    FenceIsNew(env, c0, cs[i], ps[i], ims[i], v, query, token);
    var k := AnswerDecides(env, c0, cs[j], ps[j], ims[j], w, read);
    RelatedNode(env, c0, cs[g], ps[g], ims[g], u);
    NodeFacts(env, c0, ps[g], ims[g], u, cs[g].nodes[u]);
    AppliedIsCommitted(env, c0, ps[g], ims[g], u, cs[g].nodes[u]);
    CommittedByNode(c0, ps[g], ims[g], ps[i], u);
    var r := ps[g].replicas[u];
    RelatedWorld(env, c0, cs[i], ps[i], ims[i]);
    InvTenures(ps[i]);
    P.FenceCoversCommitted(ps[i], ps[j], read.term, read.index, k, r.log[..r.commit], r.term);
  }

  /**
   * A query that is answered reads a state with every command that any node had committed when, or
   * before, its read began: `read` was begun by `v` at moment `i`, `w` answers at moment `j`, and `u`
   * is any node at any moment `g` up to `i`. One log explains the whole run; the answer is computed
   * from a prefix of it that holds the fence and everything `u` had applied.
   */
  lemma LinearizableReads<S(!new)>(
    env: Env<S>, c0: Config, cs: seq<Cluster<S>>, g: nat, i: nat, j: nat, u: Id, v: Id, w: Id, query: Bytes, token: nat)
    returns (log: seq<Entry>)
    requires Setting(env, c0) && Run(env, c0, cs) && g <= i <= j < |cs|
    requires u in cs[g].nodes && v in cs[i].nodes && w in cs[j].nodes
    requires BeginRead(env, cs[i].nodes[v], query, token).1.Ok?
    requires HandleQuery(env, cs[j].nodes[w], BeginRead(env, cs[i].nodes[v], query, token).1.value).Ok?
    ensures forall k, x :: 0 <= k < |cs| && x in cs[k].nodes ==> Explains(env, c0, log, cs[k].nodes[x])
    ensures var read := BeginRead(env, cs[i].nodes[v], query, token).1.value;
            cs[g].nodes[u].applied < read.index <= cs[j].nodes[w].applied <= |log|
    ensures cs[g].nodes[u].machine == Fold(env.app, log[..cs[g].nodes[u].applied])
    ensures HandleQuery(env, cs[j].nodes[w], BeginRead(env, cs[i].nodes[v], query, token).1.value).value
            == env.app.query(Fold(env.app, log[..cs[j].nodes[w].applied]), query)
  {
    hide Setting, Run, BeginRead, HandleQuery, Fold, ImageOk;
    FencePassed(env, c0, cs, g, i, j, u, v, w, query, token);
    log := StateMachineSafety(env, c0, cs);
    assert Explains(env, c0, log, cs[g].nodes[u]);
    assert Explains(env, c0, log, cs[j].nodes[w]);
  }

  // ---------------------------------------------------------------- snapshot streams

  /** A chunk that moves the snapshot boundary completes the image its leader vouched for. */
  lemma ChunkInstalls<S>(env: Env<S>, c0: Config, a: P.System, images: Images, v: Id, n: Node<S>, req: Chunk)
    requires NodeOk(env, c0, a, images, v, n) && ChunkOk(env, c0, a, images, req)
    requires HandleChunk(env, n, req).0.disk.log.base != n.disk.log.base
    ensures var l := HandleChunk(env, n, req).0.disk.log;
            l.base == req.lastIndex && l.baseTerm == req.lastTerm
            && l.image == images[(req.term, req.lastIndex)]
  {
    hide Stored, Live, Leading, Canvassing, Vouched, Refuses, ReceiveChunk, Follow, Continues;
    FollowKeepsLog(n, req.term, req.leader);
    ReceiveInstalls(env, c0, a, images, Follow(n, req.term, req.leader), req);
  }

  lemma ReceiveInstalls<S>(env: Env<S>, c0: Config, a: P.System, images: Images, n: Node<S>, req: Chunk)
    requires n.pending.Some? ==> Streaming(env, c0, a, images, n.pending.value)
    requires ChunkOk(env, c0, a, images, req)
    ensures var l := ReceiveChunk(env, n, req).0.disk.log;
            l == n.disk.log
            || (l.base == req.lastIndex && l.baseTerm == req.lastTerm && l.image == images[(req.term, req.lastIndex)])
  {
    hide Vouched, InstallStream;
    var s := StreamFor(n, req);
    if s.Some? && Continues(s.value, req) {
      var q := s.value.(offset := s.value.offset + |req.data|, data := s.value.data + req.data);
      ChunkExtends(env, c0, a, images, s.value, req);
      InstallKeepsOrMoves(env, n.(pending := Some(q)), q);
    }
  }

  lemma FollowKeepsLog<S>(n: Node<S>, t: nat, leader: Id)
    ensures var m := Follow(n, t, leader); m.disk.log == n.disk.log && (m.pending == None || m.pending == n.pending)
  {
    hide Follow, StepDown;
    StepDownKeeps(n, t);
    if t > n.term {
      FollowsUp(n, t, leader);
    } else {
      FollowsOn(n, t, leader);
    }
  }

  lemma InstallKeepsOrMoves<S>(env: Env<S>, n: Node<S>, p: Pending)
    ensures var l := InstallStream(env, n, p).0.disk.log;
            l == n.disk.log || (l.base == p.lastIndex && l.baseTerm == p.lastTerm && l.image == p.data)
  {
    hide AdoptEnvelope, Installed, SnapshotCodec.Decode;
    var e := SnapshotCodec.Decode(p.data);
    var restored := env.app.restore(if e == None then p.data else e.value.state);
    if restored.Some? {
      InstalledLog(n, p, restored.value);
      if e.Some? {
        AdoptKeepsLog(Installed(n, p, restored.value), e.value, p.lastIndex);
      }
    }
  }

  lemma InstalledLog<S>(n: Node<S>, p: Pending, state: S)
    ensures var l := Installed(n, p, state).disk.log;
            l.base == p.lastIndex && l.baseTerm == p.lastTerm && l.image == p.data
  {
    hide Retained;
  }

  lemma AdoptKeepsLog<S>(n: Node<S>, e: SnapshotCodec.Envelope, index: nat)
    ensures AdoptEnvelope(n, e, index).disk.log == n.disk.log
  {
    hide EnvelopeConfig, Listing, Contains, IsJoint;
  }

  /** All snapshots that leaders of one term hold at one boundary are one, at whatever moments of a run. */
  lemma OneSnapshot<S(!new)>(
    env: Env<S>, c0: Config, cs: seq<Cluster<S>>, i: nat, j: nat, v: Id, w: Id, key: (nat, nat), a: Bytes, b: Bytes)
    requires Setting(env, c0) && Run(env, c0, cs) && i <= j < |cs| && v in cs[i].nodes && w in cs[j].nodes
    requires HoldsImage(cs[i].nodes[v], key, a) && HoldsImage(cs[j].nodes[w], key, b)
    ensures a == b
  {
    hide Setting, Run, P.Later, Related, Sourced;
    var ps, ims := RunShadowed(env, c0, cs);
    assert Developed(cs[i], ims[i]) && Developed(cs[j], ims[j]);
    assert Pictured(cs[i].nodes[v], ims[i]) && Pictured(cs[j].nodes[w], ims[j]);
    assert Extends(ims[i], ims[j]);
  }

  /**
   * Whatever chunks were lost, repeated, reordered or sent by other leaders, a snapshot that a node
   * installs is byte for byte the one that the chunk's sender, as the leader of the chunk's term, held
   * at that boundary. By `OneSnapshot` there is no other.
   */
  lemma SnapshotIntegrity<S(!new)>(env: Env<S>, c0: Config, cs: seq<Cluster<S>>, j: nat, v: Id, req: Chunk)
    returns (i: nat)
    requires Setting(env, c0) && Run(env, c0, cs) && j < |cs| && v in cs[j].nodes
    requires Message(v, AskChunk(req)) in cs[j].net
    requires HandleChunk(env, cs[j].nodes[v], req).0.disk.log.base != cs[j].nodes[v].disk.log.base
    ensures var l := HandleChunk(env, cs[j].nodes[v], req).0.disk.log;
            l.base == req.lastIndex && l.baseTerm == req.lastTerm
            && i <= j && req.leader in cs[i].nodes
            && HoldsImage(cs[i].nodes[req.leader], (req.term, req.lastIndex), l.image)
  {
    hide Setting, Run, World, HandleChunk, NodeOk, ChunkOk;
    var ps, ims := RunShadowed(env, c0, cs);
    assert Related(env, c0, cs[j], ps[j], ims[j]);
    RelatedNode(env, c0, cs[j], ps[j], ims[j], v);
    assert BodyOk(env, c0, ps[j], ims[j], v, AskChunk(req)) by {
      var m := Message(v, AskChunk(req));
      assert m in cs[j].net && m.to == v && m.body == AskChunk(req);
    }
    ChunkInstalls(env, c0, ps[j], ims[j], v, cs[j].nodes[v], req);
    ChunkKey(env, c0, ps[j], ims[j], req);
    var k, w := ImageHeld(env, c0, cs, ps, ims, j, (req.term, req.lastIndex));
    i := k;
    LeaderKnown(env, c0, cs[i], ps[i], ims[i], w);
    assert P.Later(ps[i], ps[j]);
  }

  lemma ImageHeld<S>(
    env: Env<S>, c0: Config, cs: seq<Cluster<S>>, ps: seq<P.System>, ims: seq<Images>, j: nat, key: (nat, nat))
    returns (i: nat, v: Id)
    requires Shadows(env, c0, cs, ps, ims) && j < |cs| && key in ims[j]
    ensures i <= j && v in cs[i].nodes && HoldsImage(cs[i].nodes[v], key, ims[j][key])
  {
    hide Related, P.Later, HoldsImage, Extends, Developed;
    assert Sourced(cs[..j + 1], ims[j]);
    assert HeldOnce(cs[..j + 1], key, ims[j][key]);
    var k, w :| 0 <= k < |cs[..j + 1]| && w in cs[..j + 1][k].nodes && HoldsImage(cs[..j + 1][k].nodes[w], key, ims[j][key]);
    assert cs[..j + 1][k] == cs[k];
    i, v := k, w;
  }

  lemma ChunkKey<S>(env: Env<S>, c0: Config, a: P.System, images: Images, req: Chunk)
    requires ChunkOk(env, c0, a, images, req)
    ensures (req.term, req.lastIndex) in images
    ensures req.term in a.tenures && a.tenures[req.term].leader == req.leader
  {
    hide ImageOk, Fold;
  }

  // ---------------------------------------------------------------- starting and restarting

  /** Every membership has a cluster to start from. */
  lemma StartsUp<S(!new)>(env: Env<S>, c0: Config) returns (c: Cluster<S>)
    requires Setting(env, c0)
    ensures Run(env, c0, [c])
  {
    hide Boot;
    forall v ensures Boot(env, v, c0, BLANK).Some? {
      assert Stored(env, c0, FRESH, BLANK);
      BootsAs(env, c0, FRESH, BLANK, v);
    }
    c := Cluster(map v | v in c0.current :: Boot(env, v, c0, BLANK).value, {});
  }

  /** At whatever durable write a node of a running cluster stops, it can start again. */
  lemma RecoversFromEveryWrite<S(!new)>(env: Env<S>, c0: Config, cs: seq<Cluster<S>>, i: nat, v: Id, ev: Event, k: nat)
    requires Setting(env, c0) && Run(env, c0, cs) && i < |cs| && v in cs[i].nodes
    requires Enabled(cs[i].nodes[v], cs[i].net, ev)
    requires |cs[i].nodes[v].trail| <= k < |React(env, cs[i].nodes[v], ev).0.trail|
    ensures Boot(env, v, c0, React(env, cs[i].nodes[v], ev).0.trail[k]).Some?
  {
    hide Setting, Related, Run, Sourced, P.Later, React, Enabled, Sent, Simulates, Bootable, Boot, World, NodeOk;
    var ps, ims := RunShadowed(env, c0, cs);
    var c, a, images := cs[i], ps[i], ims[i];
    RelatedNode(env, c0, c, a, images, v);
    DeliveredOk(env, c0, c, a, images, v, ev);
    BeatWritesNothing(env, c.nodes[v], ev);
    var b := ReactRelated(env, c0, a, images, v, c.nodes[v], ev);
    var r := React(env, c.nodes[v], ev).0;
    SimulatesMoves(env, c0, a, images, b, v, c.nodes[v], r);
    var a' := BootSim(env, c0, a, images, v, r.trail[k]);
  }
}
