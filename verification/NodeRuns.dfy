/**
 * One node through all its entry points, with changing membership.
 *
 * A node is sound when its applied membership, its application state and its stored snapshot are
 * those of its log. Every entry point keeps it so, as long as leaders and snapshots are authentic.
 */
module NodeRuns {
  import opened Basics
  import opened RaftTypes
  import opened Membership
  import opened LogStore
  import opened Node
  import opened Handlers
  import opened Coherence
  import opened FollowerSimulation
  import opened Compaction
  import opened Recovery
  import EnvelopeRoundTrip
  import SnapshotCodec

  ghost predicate Sound<S(!new)>(env: Env<S>, c0: Config, n: Node<S>, h: seq<Entry>) {
    Ready(env.app, c0, h) && Coherent(env.app, c0, CoreOf(n), h) && n.applied == n.commit
  }

  /**
   * From `n` with log `h` to `r` with log `h'`: what was committed stays, and every durable write on
   * the way left a disk to recover from.
   */
  ghost predicate Onward<S(!new)>(env: Env<S>, c0: Config, n: Node<S>, h: seq<Entry>, r: Node<S>, h': seq<Entry>) {
    && Sound(env, c0, r, h') && n.commit <= r.commit && Kept(h, h', n.commit)
    && Logged(env, c0, h, n.commit, n.trail, r.trail)
  }

  datatype Event =
    | Timeout
    | VoteRequested(vote: VoteRequest)
    | VoteAnswered(peer: Id, voted: VoteReply)
    | Appended(append: AppendRequest)
    | AppendAnswered(peer: Id, appended: AppendReply)
    | ChunkReceived(chunk: Chunk)
    | ChunkAnswered(peer: Id, received: ChunkReply, next: nat, done: bool)
    | Submitted(command: Command)
    | JointProposed(members: Proposal)
    | JoinProposed(joiner: Peer)
    | Promoted
    | ReadBegun(query: Bytes, token: nat)

  function React<S>(env: Env<S>, n: Node<S>, ev: Event): Node<S> {
    match ev
    case Timeout => StartElection(env, n)
    case VoteRequested(req) => HandleVoteRequest(n, req).0
    case VoteAnswered(peer, reply) => HandleVoteReply(env, n, peer, reply)
    case Appended(req) => HandleAppend(env, n, req).0
    case AppendAnswered(peer, reply) => HandleAppendReply(env, n, peer, reply)
    case ChunkReceived(req) => HandleChunk(env, n, req).0
    case ChunkAnswered(peer, reply, next, done) => HandleChunkReply(env, n, peer, reply, next, done)
    case Submitted(command) => SubmitCommand(env, n, command).0
    case JointProposed(members) => SubmitJoint(env, n, members).0
    case JoinProposed(joiner) => SubmitJoin(env, n, joiner).0
    case Promoted => PromoteJoiners(env, n)
    case ReadBegun(query, token) => BeginRead(env, n, query, token).0
  }

  // ---------------------------------------------------------------- what the environment owes

  /** The stream that a chunk completes, if it completes one. */
  function Completed<S>(n: Node<S>, req: Chunk): Option<Pending> {
    if req.term < n.term || Refuses(n, req.term, req.leader) then None
    else
      var m := Follow(n, req.term, req.leader);
      if req.lastIndex <= m.commit then None
      else
        var s := StreamFor(m, req);
        if s == None || !Continues(s.value, req) || |s.value.data| + |req.data| > MAX_SNAPSHOT_BYTES || !req.done then None
        else Some(s.value.(offset := s.value.offset + |req.data|, data := s.value.data + req.data))
  }

  /**
   * `p` is the log that a snapshot stands for; it holds what is committed, and where both logs hold
   * the boundary, they agree.
   */
  ghost predicate Authentic<S>(env: Env<S>, c0: Config, h: seq<Entry>, commit: nat, p: seq<Entry>, s: Pending) {
    && AgreeTo(h, p, commit)
    && |p| == s.lastIndex && SafeLog(p) && TermOf(p, |p|) == s.lastTerm
    && ImageOk(env.app, FoldConfig(c0, p), Fold(env.app, p), s.data)
    && (|p| <= |h| && TermOf(h, |p|) == s.lastTerm ==> p == h[..|p|])
  }

  ghost predicate FaithfulAll(members: seq<Peer>) {
    forall p :: p in members ==> EnvelopeRoundTrip.Faithful(p)
  }

  ghost predicate Honest<S>(env: Env<S>, c0: Config, n: Node<S>, h: seq<Entry>, ev: Event) {
    match ev
    case Appended(req) => exists o :: Carries(req, o) && AgreeTo(h, o, n.commit) && SafeLog(o)
    case ChunkReceived(req) => Completed(n, req).Some? ==> exists p :: Authentic(env, c0, h, n.commit, p, Completed(n, req).value)
    case Submitted(command) => !command.Joint?
    case JointProposed(members) => FaithfulAll(members)
    case Promoted => FaithfulAll(Promotion(n))
    case _ => true
  }

  // ---------------------------------------------------------------- leading

  lemma OnwardTrans<S(!new)>(
      env: Env<S>, c0: Config, n: Node<S>, h: seq<Entry>, m: Node<S>, a: seq<Entry>, r: Node<S>, h': seq<Entry>)
    requires Onward(env, c0, n, h, m, a) && Onward(env, c0, m, a, r, h')
    ensures Onward(env, c0, n, h, r, h')
  {
    hide Sound, Logged, Kept;
    KeptTrans(h, a, h', n.commit, m.commit);
    LoggedTrans(env, c0, h, n.commit, a, m.commit, n.trail, m.trail, r.trail);
  }

  /** The log grew, and every write kept all of it. */
  lemma OnwardGrown<S(!new)>(env: Env<S>, c0: Config, n: Node<S>, h: seq<Entry>, r: Node<S>, h': seq<Entry>)
    requires Sound(env, c0, n, h) && Sound(env, c0, r, h') && n.commit <= r.commit && h <= h'
    requires Logged(env, c0, h, |h|, n.trail, r.trail)
    ensures Onward(env, c0, n, h, r, h')
  {
    hide Ready, Logged, ImageOk, Fold, FoldConfig;
    NoWrites(env, c0, h, n.trail);
    LoggedTrans(env, c0, h, n.commit, h, |h|, n.trail, n.trail, r.trail);
  }

  /** Nothing but terms, votes and volatile fields changed. */
  lemma SameCore<S(!new)>(env: Env<S>, c0: Config, n: Node<S>, m: Node<S>, h: seq<Entry>)
    requires Sound(env, c0, n, h) && CoreOf(m) == CoreOf(n) && Wrote(n.disk.log, n.trail, m.trail)
    ensures Onward(env, c0, n, h, m, h)
  {
    hide Ready, Coherent, Wrote, Logged, Backed;
    CoherentBacked(env, c0, CoreOf(n), h);
    WroteIsLogged(env, c0, h, h, |h|, n.disk.log, n.trail, m.trail);
    OnwardGrown(env, c0, n, h, m, h);
  }

  lemma Unmoved<S(!new)>(env: Env<S>, c0: Config, n: Node<S>, h: seq<Entry>)
    requires Sound(env, c0, n, h)
    ensures Onward(env, c0, n, h, n, h)
  {
    hide Sound, Onward;
    SameCore(env, c0, n, n, h);
  }

  lemma StepDownWrites<S>(n: Node<S>, t: nat)
    ensures CoreOf(StepDown(n, t)) == CoreOf(n) && Wrote(n.disk.log, n.trail, StepDown(n, t).trail)
  {
  }

  lemma AdvanceOnward<S(!new)>(env: Env<S>, c0: Config, n: Node<S>, h: seq<Entry>) returns (h': seq<Entry>)
    requires Sound(env, c0, n, h)
    ensures Onward(env, c0, n, h, AdvanceCommit(env, n), h')
  {
    hide Ready, Coherent, HasJoint, ApplyCommitted, CommitScan, Onward, Logged;
    h' := AdvanceCoherent(env, c0, n, h);
    AdvanceLogged(env, c0, n, h);
    OnwardGrown(env, c0, n, h, AdvanceCommit(env, n), h');
  }

  lemma AutoFinalizeOnward<S(!new)>(env: Env<S>, c0: Config, n: Node<S>, h: seq<Entry>) returns (h': seq<Entry>)
    requires Sound(env, c0, n, h)
    ensures Onward(env, c0, n, h, MaybeAutoFinalize(env, n), h')
  {
    hide Ready, Coherent, HasJoint, MaybeAutoFinalize, Onward, Logged;
    h' := AutoFinalizeCoherent(env, c0, n, h);
    AutoFinalizeApplied(env, n);
    AutoFinalizeLogged(env, c0, n, h);
    OnwardGrown(env, c0, n, h, MaybeAutoFinalize(env, n), h');
  }

  lemma AutoFinalizeApplied<S>(env: Env<S>, n: Node<S>)
    requires n.applied == n.commit
    ensures MaybeAutoFinalize(env, n).applied == MaybeAutoFinalize(env, n).commit
  {
    hide IsJoint, ApplyCommitted, CommitScan;
  }

  lemma AppendOnward<S(!new)>(env: Env<S>, c0: Config, n: Node<S>, h: seq<Entry>, command: Command) returns (h': seq<Entry>)
    requires Sound(env, c0, n, h) && (command.Joint? ==> FaithfulAll(command.members))
    ensures Onward(env, c0, n, h, AdvanceCommit(env, AppendOwn(n, command)), h')
  {
    hide Ready, Coherent, AdvanceCommit, Logged, Onward;
    var e := Entry(n.term, n.me, command);
    assert SafeEntry(e);
    var m := AppendOwn(n, command);
    AppendOwnLogged(env, c0, n, h, command);
    OnwardGrown(env, c0, n, h, m, h + [e]);
    h' := AdvanceOnward(env, c0, m, h + [e]);
    OnwardTrans(env, c0, n, h, m, h + [e], AdvanceCommit(env, m), h');
  }

  lemma SubmitOnward<S(!new)>(env: Env<S>, c0: Config, n: Node<S>, h: seq<Entry>, command: Command) returns (h': seq<Entry>)
    requires Sound(env, c0, n, h) && (command.Joint? ==> FaithfulAll(command.members))
    ensures Onward(env, c0, n, h, SubmitCommand(env, n, command).0, h')
  {
    hide Sound, Onward, AdvanceCommit, AppendOwn;
    h' := h;
    Unmoved(env, c0, n, h);
    if SubmitCommand(env, n, command).1.Ok? {
      h' := AppendOnward(env, c0, n, h, command);
    }
  }

  lemma JointOnward<S(!new)>(env: Env<S>, c0: Config, n: Node<S>, h: seq<Entry>, members: Proposal) returns (h': seq<Entry>)
    requires Sound(env, c0, n, h) && FaithfulAll(members)
    ensures Onward(env, c0, n, h, SubmitJoint(env, n, members).0, h')
  {
    hide Sound, Onward, SubmitCommand, MaybeAutoFinalize, ChangeUnderway, IsJoint;
    h' := h;
    Unmoved(env, c0, n, h);
    if SubmitJoint(env, n, members).0 != n {
      var a := SubmitOnward(env, c0, n, h, Joint(members));
      h' := a;
      var m := SubmitCommand(env, n, Joint(members)).0;
      if SubmitCommand(env, n, Joint(members)).1.Ok? {
        OnwardSound(env, c0, n, h, m, a);
        h' := AutoFinalizeOnward(env, c0, m, a);
        OnwardTrans(env, c0, n, h, m, a, MaybeAutoFinalize(env, m), h');
      }
    }
  }

  lemma OnwardSound<S(!new)>(env: Env<S>, c0: Config, n: Node<S>, h: seq<Entry>, r: Node<S>, h': seq<Entry>)
    requires Onward(env, c0, n, h, r, h')
    ensures Sound(env, c0, r, h')
  {
    hide Sound, Logged, Kept;
  }

  lemma JoinOnward<S(!new)>(env: Env<S>, c0: Config, n: Node<S>, h: seq<Entry>, peer: Peer) returns (h': seq<Entry>)
    requires Sound(env, c0, n, h)
    ensures Onward(env, c0, n, h, SubmitJoin(env, n, peer).0, h')
  {
    hide Sound, Onward, SubmitCommand, JoinIndex, Contains;
    h' := h;
    Unmoved(env, c0, n, h);
    if SubmitJoin(env, n, peer).0 != n {
      h' := SubmitOnward(env, c0, n, h, Join(peer));
    }
  }

  lemma ReadOnward<S(!new)>(env: Env<S>, c0: Config, n: Node<S>, h: seq<Entry>, query: Bytes, token: nat)
    returns (h': seq<Entry>)
    requires Sound(env, c0, n, h)
    ensures Onward(env, c0, n, h, BeginRead(env, n, query, token).0, h')
  {
    hide Sound, Onward, AdvanceCommit, AppendOwn, IsVoter;
    h' := h;
    Unmoved(env, c0, n, h);
    if BeginRead(env, n, query, token).1.Ok? {
      var m := n.(readDomain := Some(if n.readDomain == None then token else n.readDomain.value));
      SameCore(env, c0, n, m, h);
      OnwardSound(env, c0, n, h, m, h);
      h' := AppendOnward(env, c0, m, h, Noop);
      OnwardTrans(env, c0, n, h, m, h, AdvanceCommit(env, AppendOwn(m, Noop)), h');
    }
  }

  lemma ProgressOnward<S(!new)>(env: Env<S>, c0: Config, n: Node<S>, h: seq<Entry>, m: Node<S>) returns (h': seq<Entry>)
    requires Sound(env, c0, n, h) && CoreOf(m) == CoreOf(n) && m.trail == n.trail
    ensures Onward(env, c0, n, h, AdvanceCommit(env, m), h')
  {
    hide Sound, Onward, AdvanceCommit, CoreOf;
    SameCore(env, c0, n, m, h);
    OnwardSound(env, c0, n, h, m, h);
    h' := AdvanceOnward(env, c0, m, h);
    OnwardTrans(env, c0, n, h, m, h, AdvanceCommit(env, m), h');
  }

  lemma AppendReplyOnward<S(!new)>(env: Env<S>, c0: Config, n: Node<S>, h: seq<Entry>, peer: Id, reply: AppendReply)
    returns (h': seq<Entry>)
    requires Sound(env, c0, n, h)
    ensures Onward(env, c0, n, h, HandleAppendReply(env, n, peer, reply), h')
  {
    hide Sound, Onward, AdvanceCommit, MaybeAutoFinalize, AcceptsReply, StepDown;
    h' := h;
    StepDownWrites(n, reply.term);
    SameCore(env, c0, n, StepDown(n, reply.term), h);
    SameCore(env, c0, n, BackOff(n, peer), h);
    Unmoved(env, c0, n, h);
    if n.role == Leader && AcceptsReply(n, peer, reply.peer) && reply.term == n.term && reply.success
       && reply.matchIndex <= LastIndex(n.disk.log)
    {
      var m := AdvanceCommit(env, RecordProgress(n, peer, reply.matchIndex));
      var a := ProgressOnward(env, c0, n, h, RecordProgress(n, peer, reply.matchIndex));
      OnwardSound(env, c0, n, h, m, a);
      h' := AutoFinalizeOnward(env, c0, m, a);
      OnwardTrans(env, c0, n, h, m, a, MaybeAutoFinalize(env, m), h');
    }
  }

  lemma ChunkReplyOnward<S(!new)>(
    env: Env<S>, c0: Config, n: Node<S>, h: seq<Entry>, peer: Id, reply: ChunkReply, next: nat, done: bool)
    returns (h': seq<Entry>)
    requires Sound(env, c0, n, h)
    ensures Onward(env, c0, n, h, HandleChunkReply(env, n, peer, reply, next, done), h')
  {
    hide Sound, Onward, AdvanceCommit, AcceptsReply, StepDown;
    h' := h;
    StepDownWrites(n, reply.term);
    SameCore(env, c0, n, StepDown(n, reply.term), h);
    SameCore(env, c0, n, n.(offsets := n.offsets[peer := reply.nextOffset]), h);
    SameCore(env, c0, n, n.(offsets := n.offsets[peer := next]), h);
    Unmoved(env, c0, n, h);
    if AcceptsReply(n, peer, reply.peer) && n.role == Leader && reply.term == n.term && reply.success
       && reply.lastIndex <= LastIndex(n.disk.log) && done && reply.done
    {
      h' := ProgressOnward(env, c0, n, h, RecordProgress(n, peer, reply.lastIndex).(offsets := n.offsets[peer := 0]));
    }
  }

  // ---------------------------------------------------------------- elections

  lemma LeaderOnward<S(!new)>(env: Env<S>, c0: Config, n: Node<S>, h: seq<Entry>) returns (h': seq<Entry>)
    requires Sound(env, c0, n, h)
    ensures Onward(env, c0, n, h, BecomeLeader(env, n), h')
  {
    hide Sound, Onward, AdvanceCommit, AppendOwn, Others;
    var m := TakeOffice(n);
    SameCore(env, c0, n, m, h);
    OnwardSound(env, c0, n, h, m, h);
    h' := AppendOnward(env, c0, m, h, Noop);
    OnwardTrans(env, c0, n, h, m, h, BecomeLeader(env, n), h');
  }

  lemma CampaignWrites<S>(n: Node<S>)
    ensures CoreOf(Campaign(n)) == CoreOf(n) && Wrote(n.disk.log, n.trail, Campaign(n).trail)
  {
  }

  lemma TimeoutOnward<S(!new)>(env: Env<S>, c0: Config, n: Node<S>, h: seq<Entry>) returns (h': seq<Entry>)
    requires Sound(env, c0, n, h)
    ensures Onward(env, c0, n, h, StartElection(env, n), h')
  {
    hide Sound, Onward, BecomeLeader, Campaign, MayCampaign, HasJointMajority, Effective;
    h' := h;
    SameCore(env, c0, n, n.(role := Follower), h);
    var c := Campaign(n);
    CampaignWrites(n);
    SameCore(env, c0, n, c, h);
    if MayCampaign(n) && HasJointMajority(Effective(c), c.votes) {
      OnwardSound(env, c0, n, h, c, h);
      h' := LeaderOnward(env, c0, c, h);
      OnwardTrans(env, c0, n, h, c, h, BecomeLeader(env, c), h');
    }
  }

  lemma VoteRequestWrites<S>(n: Node<S>, req: VoteRequest)
    ensures CoreOf(HandleVoteRequest(n, req).0) == CoreOf(n)
    ensures Wrote(n.disk.log, n.trail, HandleVoteRequest(n, req).0.trail)
  {
    hide StepDown, Grants;
    StepDownWrites(n, req.term);
  }

  lemma VoteReplyOnward<S(!new)>(env: Env<S>, c0: Config, n: Node<S>, h: seq<Entry>, peer: Id, reply: VoteReply)
    returns (h': seq<Entry>)
    requires Sound(env, c0, n, h)
    ensures Onward(env, c0, n, h, HandleVoteReply(env, n, peer, reply), h')
  {
    hide Sound, Onward, BecomeLeader, StepDown, HasJointMajority, Effective, IsVoter;
    h' := h;
    StepDownWrites(n, reply.term);
    SameCore(env, c0, n, StepDown(n, reply.term), h);
    Unmoved(env, c0, n, h);
    var m := n.(votes := n.votes + {peer});
    SameCore(env, c0, n, m, h);
    if HandleVoteReply(env, n, peer, reply) == BecomeLeader(env, m) {
      OnwardSound(env, c0, n, h, m, h);
      h' := LeaderOnward(env, c0, m, h);
      OnwardTrans(env, c0, n, h, m, h, BecomeLeader(env, m), h');
    }
  }

  // ---------------------------------------------------------------- following

  lemma {:induction false} ConflictPastCommit(l: Log, h: seq<Entry>, prev: nat, es: seq<Entry>, i: nat, commit: nat)
    requires Represents(l, h) && l.base <= prev && i <= |es| && commit <= |h|
    requires forall j :: i <= j < |es| && prev + j < commit ==> h[prev + j].term == es[j].term
    ensures var c := ConflictAt(l, prev, es, i); c.Some? ==> commit < c.value <= |h| && prev < c.value
    decreases |es| - i
  {
    QueriesAgree(l, h);
    if i < |es| {
      ConflictPastCommit(l, h, prev, es, i + 1, commit);
    }
  }

  /** Between the cut and the append the disk holds a log that lost nothing committed. */
  lemma CutLogged<S(!new)>(env: Env<S>, c0: Config, n: Node<S>, h: seq<Entry>, cut: nat)
    requires Sound(env, c0, n, h) && n.commit < cut <= |h|
    ensures Logged(env, c0, h, n.commit, n.trail, PersistLog(n, TruncateFrom(n.disk.log, cut)).trail)
  {
    hide SafeConfig, Lawful, FoldConfig, Fold, ImageOk, Represents, TruncateFrom, SafeEntry, IsJoint, Backed, Logged;
    var l := TruncateFrom(n.disk.log, cut);
    TruncateRepresents(n.disk.log, h, cut);
    TruncateKeepsBase(n.disk.log, h, cut);
    assert h[..cut - 1][..n.commit] == h[..n.commit];
    CoherentRelog(env.app, c0, CoreOf(n), h, l, h[..cut - 1]);
    CoherentBacked(env, c0, CoreOf(n).(log := l), h[..cut - 1]);
    WroteIsLogged(env, c0, h, h[..cut - 1], n.commit, l, n.trail, PersistLog(n, l).trail);
  }

  lemma TruncateKeepsBase(l: Log, h: seq<Entry>, cut: nat)
    requires Represents(l, h) && l.base < cut
    ensures TruncateFrom(l, cut).base == l.base && TruncateFrom(l, cut).image == l.image
  {
  }

  lemma MergeOnward<S(!new)>(env: Env<S>, c0: Config, n: Node<S>, h: seq<Entry>, prev: nat, es: seq<Entry>)
    requires Sound(env, c0, n, h) && SafeLog(es) && n.disk.log.base <= prev <= |h|
    requires forall j :: 0 <= j < |es| && prev + j < n.commit ==> h[prev + j].term == es[j].term
    ensures Onward(env, c0, n, h, MergeNode(n, prev, es), Merge(Whole(h), prev, es, 0).entries)
  {
    hide Ready, SafeLog, Merge, ConflictAt, FoldConfig, Fold, ImageOk, Represents, TruncateFrom, Logged, Backed;
    var h' := Merge(Whole(h), prev, es, 0).entries;
    var r := MergeNode(n, prev, es);
    MergedCoherent(env, c0, n, h, prev, es);
    MergeKeeps(h, prev, es, 0, n.commit);
    MergeFields(n, prev, es);
    CoherentBacked(env, c0, CoreOf(r), h');
    NoWrites(env, c0, h, n.trail);
    var cut := ConflictAt(n.disk.log, prev, es, 0);
    ConflictPastCommit(n.disk.log, h, prev, es, 0, n.commit);
    var m := if cut == None then n else PersistLog(n, TruncateFrom(n.disk.log, cut.value));
    if cut.Some? {
      CutLogged(env, c0, n, h, cut.value);
    }
    WroteIsLogged(env, c0, h, h', n.commit, r.disk.log, m.trail, r.trail);
    LoggedTrans(env, c0, h, n.commit, h, n.commit, n.trail, m.trail, r.trail);
  }

  lemma ReplicateOnward<S(!new)>(
      env: Env<S>, c0: Config, n: Node<S>, h: seq<Entry>, prev: nat, prevTerm: nat, es: seq<Entry>, commit: nat)
    returns (h': seq<Entry>)
    requires Sound(env, c0, n, h) && SafeLog(es) && n.role == Follower && n.disk.log.base <= prev
    requires prev == 0 ==> prevTerm == 0
    requires forall j :: 0 <= j < |es| && prev + j < n.commit ==> h[prev + j].term == es[j].term
    ensures Onward(env, c0, n, h, Replicate(env, n, prev, prevTerm, es, commit).0, h')
  {
    hide Ready, Merge, MergeNode, FoldConfig, Fold, ImageOk, ApplyCommitted, Onward, Logged, SafeLog, HasJoint;
    h' := h;
    QueriesAgree(n.disk.log, h);
    Unmoved(env, c0, n, h);
    if prev <= |h| && TermOf(h, prev) == prevTerm {
      var m := MergeNode(n, prev, es);
      h' := Merge(Whole(h), prev, es, 0).entries;
      MergeOnward(env, c0, n, h, prev, es);
      MergeFields(n, prev, es);
      OnwardSound(env, c0, n, h, m, h');
      var c := Min(commit, prev + |es|);
      if c > n.commit {
        MergeReaches(h, prev, es, 0);
        var a := h';
        h' := ApplyOnward(env, c0, m, a, c);
        OnwardTrans(env, c0, n, h, m, a, ApplyCommitted(env, m.(commit := c)), h');
      }
    }
  }

  lemma ApplyOnward<S(!new)>(env: Env<S>, c0: Config, n: Node<S>, h: seq<Entry>, c: nat) returns (h': seq<Entry>)
    requires Sound(env, c0, n, h) && n.commit <= c <= |h|
    ensures Onward(env, c0, n, h, ApplyCommitted(env, n.(commit := c)), h')
  {
    hide Ready, Coherent, HasJoint, ApplyCommitted, Onward, Logged;
    HigherCommit(env.app, c0, CoreOf(n), h, c);
    h' := ApplyCommittedCoherent(env, c0, n.(commit := c), h);
    ApplyCommittedLogged(env, c0, n.(commit := c), h);
    OnwardGrown(env, c0, n, h, ApplyCommitted(env, n.(commit := c)), h');
  }

  lemma AppendBodyOnward<S(!new)>(
      env: Env<S>, c0: Config, n: Node<S>, h: seq<Entry>, o: seq<Entry>, req: AppendRequest)
    returns (h': seq<Entry>)
    requires Sound(env, c0, n, h) && SafeLog(o) && n.role == Follower && Carries(req, o) && AgreeTo(h, o, n.commit)
    ensures Onward(env, c0, n, h, AppendBody(env, n, req).0, h')
  {
    hide Ready, Merge, FoldConfig, Fold, ImageOk, Replicate, SafeEntry, AgreeTo, Onward;
    var base := n.disk.log.base;
    h' := h;
    Unmoved(env, c0, n, h);
    AgreedTerms(h, o, n.commit);
    if req.prevIndex < base {
      Overlapping(h, o, req, base, n.commit);
      if |o| >= base {
        h' := ReplicateOnward(env, c0, n, h, base, n.disk.log.baseTerm, o[base..], req.commit);
      }
    } else {
      h' := ReplicateOnward(env, c0, n, h, req.prevIndex, req.prevTerm, req.entries, req.commit);
    }
  }

  lemma FollowWrites<S>(n: Node<S>, t: nat, leader: Id)
    ensures CoreOf(Follow(n, t, leader)) == CoreOf(n) && Follow(n, t, leader).role == Follower
    ensures Wrote(n.disk.log, n.trail, Follow(n, t, leader).trail)
  {
    hide StepDown;
    FollowCore(n, t, leader);
    StepDownWrites(n, t);
  }

  lemma AppendedOnward<S(!new)>(env: Env<S>, c0: Config, n: Node<S>, h: seq<Entry>, req: AppendRequest)
    returns (h': seq<Entry>)
    requires Sound(env, c0, n, h) && exists o :: Carries(req, o) && AgreeTo(h, o, n.commit) && SafeLog(o)
    ensures Onward(env, c0, n, h, HandleAppend(env, n, req).0, h')
  {
    hide Sound, Onward, Refuses, AppendBody, Follow, Carries, AgreeTo, SafeLog, Wrote;
    h' := h;
    Unmoved(env, c0, n, h);
    if n.term <= req.term && !Refuses(n, req.term, req.leader) {
      var o :| Carries(req, o) && AgreeTo(h, o, n.commit) && SafeLog(o);
      var m := Follow(n, req.term, req.leader);
      FollowWrites(n, req.term, req.leader);
      SameCore(env, c0, n, m, h);
      OnwardSound(env, c0, n, h, m, h);
      h' := AppendBodyOnward(env, c0, m, h, o, req);
      OnwardTrans(env, c0, n, h, m, h, AppendBody(env, m, req).0, h');
    }
  }

  /** The core that an authentic snapshot leaves behind. */
  lemma InstalledCore<S>(env: Env<S>, c: Config, n: Node<S>, p: Pending, s: S)
    requires SafeConfig(c) && ImageOk(env.app, c, s, p.data)
    ensures CoreOf(InstallStream(env, n, p).0)
            == Core(InstallSnapshot(n.disk.log, p.lastIndex, p.lastTerm, p.data), p.lastIndex, p.lastIndex, c, c, s)
  {
    hide AdoptEnvelope, Installed, InstallStream, InstallSnapshot;
    InstallsAs(env, c, n, p, s);
    InstalledFields(n, p, s);
    AdoptedFields(Installed(n, p, s), SnapshotCodec.Decode(p.data).value, p.lastIndex, c);
  }

  lemma InstallRepresentsAuthentic(l: Log, h: seq<Entry>, p: seq<Entry>, image: Bytes)
    requires Represents(l, h) && l.base < |p|
    requires |p| <= |h| && TermOf(h, |p|) == TermOf(p, |p|) ==> p == h[..|p|]
    ensures var h' := if |p| <= |h| && TermOf(h, |p|) == TermOf(p, |p|) then h else p;
            Represents(InstallSnapshot(l, |p|, TermOf(p, |p|), image), h') && h'[..|p|] == p
  {
    if |p| <= |h| && TermOf(h, |p|) == TermOf(p, |p|) {
      CompactRepresents(l, h, |p|, image);
    } else {
      ReplaceRepresents(l, h, p, image);
    }
  }

  lemma AdoptWrites<S>(n: Node<S>, e: SnapshotCodec.Envelope, index: nat)
    ensures Wrote(n.disk.log, n.trail, AdoptEnvelope(n, e, index).trail) && AdoptEnvelope(n, e, index).disk.log == n.disk.log
  {
    hide EnvelopeConfig, Contains, Listing, IsJoint, IdsOf;
  }

  lemma InstalledWrites<S>(n: Node<S>, p: Pending, state: S)
    ensures Wrote(Installed(n, p, state).disk.log, n.trail, Installed(n, p, state).trail)
  {
    hide InstallSnapshot;
  }

  lemma WroteTrans(l: Log, t: seq<Disk>, t1: seq<Disk>, t2: seq<Disk>)
    requires Wrote(l, t, t1) && Wrote(l, t1, t2)
    ensures Wrote(l, t, t2)
  {
  }

  lemma InstallWrites<S>(env: Env<S>, n: Node<S>, p: Pending)
    ensures Wrote(InstallStream(env, n, p).0.disk.log, n.trail, InstallStream(env, n, p).0.trail)
  {
    hide SnapshotCodec.Decode, AdoptEnvelope, Installed, Wrote;
    var e := SnapshotCodec.Decode(p.data);
    var restored := env.app.restore(if e == None then p.data else e.value.state);
    if restored == None {
      NothingWrote(n.disk.log, n.trail);
    } else {
      var m := Installed(n, p, restored.value);
      InstalledWrites(n, p, restored.value);
      if e.Some? {
        AdoptWrites(m, e.value, p.lastIndex);
        WroteTrans(m.disk.log, n.trail, m.trail, AdoptEnvelope(m, e.value, p.lastIndex).trail);
      }
    }
  }

  lemma NothingWrote(l: Log, t: seq<Disk>)
    ensures Wrote(l, t, t)
  {
  }

  lemma InstallOnward<S(!new)>(env: Env<S>, c0: Config, n: Node<S>, h: seq<Entry>, p: seq<Entry>, s: Pending)
    returns (h': seq<Entry>)
    requires Sound(env, c0, n, h) && Authentic(env, c0, h, n.commit, p, s) && n.commit < s.lastIndex
    ensures Onward(env, c0, n, h, InstallStream(env, n, s).0, h')
  {
    hide InstallStream, Onward, Authentic, Sound, Wrote, Backed, Logged;
    h' := if |p| <= |h| && TermOf(h, |p|) == s.lastTerm then h else p;
    InstallKeeps(env, c0, n, h, p, s);
    var r := InstallStream(env, n, s).0;
    InstallSound(env, c0, n, h, p, s);
    InstallWrites(env, n, s);
    SoundBacked(env, c0, r, h');
    WroteIsLogged(env, c0, h, h', n.commit, r.disk.log, n.trail, r.trail);
    Gather(env, c0, n, h, r, h');
  }

  lemma SoundBacked<S(!new)>(env: Env<S>, c0: Config, n: Node<S>, h: seq<Entry>)
    requires Sound(env, c0, n, h)
    ensures Backed(env, c0, n.disk.log, h)
  {
    hide Ready, Coherent, Backed;
    CoherentBacked(env, c0, CoreOf(n), h);
  }

  lemma Gather<S(!new)>(env: Env<S>, c0: Config, n: Node<S>, h: seq<Entry>, r: Node<S>, h': seq<Entry>)
    requires Sound(env, c0, r, h') && n.commit <= r.commit && Kept(h, h', n.commit)
    requires Logged(env, c0, h, n.commit, n.trail, r.trail)
    ensures Onward(env, c0, n, h, r, h')
  {
    hide Sound, Kept, Logged;
  }

  lemma InstallKeeps<S(!new)>(env: Env<S>, c0: Config, n: Node<S>, h: seq<Entry>, p: seq<Entry>, s: Pending)
    requires Sound(env, c0, n, h) && Authentic(env, c0, h, n.commit, p, s) && n.commit < s.lastIndex
    ensures Kept(h, if |p| <= |h| && TermOf(h, |p|) == s.lastTerm then h else p, n.commit)
  {
    hide Fold, FoldConfig, ImageOk, Ready, Represents, SafeLog;
  }

  lemma InstallSound<S(!new)>(env: Env<S>, c0: Config, n: Node<S>, h: seq<Entry>, p: seq<Entry>, s: Pending)
    requires Sound(env, c0, n, h) && Authentic(env, c0, h, n.commit, p, s) && n.commit < s.lastIndex
    ensures var r := InstallStream(env, n, s).0;
            && Sound(env, c0, r, if |p| <= |h| && TermOf(h, |p|) == s.lastTerm then h else p)
            && r.commit == s.lastIndex
  {
    hide InstallStream, InstallSnapshot, Fold, FoldConfig, ImageOk, Lawful, SafeConfig, IsJoint, Represents, SafeEntry,
      AgreeTo;
    FoldIsSafe(c0, p);
    InstalledCore(env, FoldConfig(c0, p), n, s, Fold(env.app, p));
    InstallRepresentsAuthentic(n.disk.log, h, p, s.data);
    InstallBase(n.disk.log, s.lastIndex, s.lastTerm, s.data);
  }

  lemma ReceiveCore<S>(env: Env<S>, n: Node<S>, req: Chunk)
    ensures var s := StreamFor(n, req);
            var r := ReceiveChunk(env, n, req).0;
            if s == None || !Continues(s.value, req) || |s.value.data| + |req.data| > MAX_SNAPSHOT_BYTES || !req.done then
              CoreOf(r) == CoreOf(n) && r.trail == n.trail
            else
              var q := s.value.(offset := s.value.offset + |req.data|, data := s.value.data + req.data);
              r == InstallStream(env, n.(pending := Some(q)), q).0
  {
    hide InstallStream, StreamFor, Continues;
  }

  lemma ReceiveOnward<S(!new)>(env: Env<S>, c0: Config, n: Node<S>, m: Node<S>, h: seq<Entry>, req: Chunk)
    returns (h': seq<Entry>)
    requires Sound(env, c0, m, h) && m == Follow(n, req.term, req.leader) && m.commit < req.lastIndex
    requires n.term <= req.term && !Refuses(n, req.term, req.leader)
    requires Completed(n, req).Some? ==> exists p :: Authentic(env, c0, h, m.commit, p, Completed(n, req).value)
    ensures Onward(env, c0, m, h, ReceiveChunk(env, m, req).0, h')
  {
    hide Sound, Onward, Refuses, Follow, ReceiveChunk, InstallStream, StreamFor, Continues, Authentic;
    h' := h;
    ReceiveCore(env, m, req);
    if Completed(n, req) == None {
      SameCore(env, c0, m, ReceiveChunk(env, m, req).0, h);
    } else {
      var q := Completed(n, req).value;
      var p :| Authentic(env, c0, h, m.commit, p, q);
      StreamIndex(m, req);
      var k := m.(pending := Some(q));
      SameCore(env, c0, m, k, h);
      OnwardSound(env, c0, m, h, k, h);
      h' := InstallOnward(env, c0, k, h, p, q);
      OnwardTrans(env, c0, m, h, k, h, InstallStream(env, k, q).0, h');
    }
  }

  lemma ChunkOnward<S(!new)>(env: Env<S>, c0: Config, n: Node<S>, h: seq<Entry>, req: Chunk) returns (h': seq<Entry>)
    requires Sound(env, c0, n, h)
    requires Completed(n, req).Some? ==> exists p :: Authentic(env, c0, h, n.commit, p, Completed(n, req).value)
    ensures Onward(env, c0, n, h, HandleChunk(env, n, req).0, h')
  {
    hide Sound, Onward, Refuses, Follow, ReceiveChunk, Authentic, Completed, Wrote;
    h' := h;
    Unmoved(env, c0, n, h);
    if n.term <= req.term && !Refuses(n, req.term, req.leader) {
      var m := Follow(n, req.term, req.leader);
      FollowWrites(n, req.term, req.leader);
      SameCore(env, c0, n, m, h);
      SameCore(env, c0, n, m.(pending := None), h);
      if req.lastIndex > m.commit {
        OnwardSound(env, c0, n, h, m, h);
        h' := ReceiveOnward(env, c0, n, m, h, req);
        OnwardTrans(env, c0, n, h, m, h, ReceiveChunk(env, m, req).0, h');
      }
    }
  }

  lemma StreamIndex<S>(n: Node<S>, req: Chunk)
    ensures var s := StreamFor(n, req); s.Some? && Continues(s.value, req) ==> s.value.lastIndex == req.lastIndex
  {
  }

  /** A rejected chunk, or a snapshot that does not restore, moves neither log, commit index nor membership. */
  lemma RejectionKeepsCore<S>(env: Env<S>, n: Node<S>, req: Chunk)
    requires !HandleChunk(env, n, req).1.success
    ensures CoreOf(HandleChunk(env, n, req).0) == CoreOf(n)
  {
    hide Refuses, Follow, ReceiveChunk;
    var m := Follow(n, req.term, req.leader);
    FollowCore(n, req.term, req.leader);
    if !ReceiveChunk(env, m, req).1.success {
      ReceiveRejected(env, m, req);
    }
  }

  lemma ReceiveRejected<S>(env: Env<S>, n: Node<S>, req: Chunk)
    requires !ReceiveChunk(env, n, req).1.success
    ensures CoreOf(ReceiveChunk(env, n, req).0) == CoreOf(n)
  {
    hide StreamFor, Continues, InstallStream;
    ReceiveCore(env, n, req);
    var s := StreamFor(n, req);
    if s.Some? && Continues(s.value, req) && |s.value.data| + |req.data| <= MAX_SNAPSHOT_BYTES && req.done {
      var q := s.value.(offset := s.value.offset + |req.data|, data := s.value.data + req.data);
      UnrestoredCore(env, n.(pending := Some(q)), q);
    }
  }

  lemma UnrestoredCore<S>(env: Env<S>, n: Node<S>, p: Pending)
    requires !InstallStream(env, n, p).1.success
    ensures CoreOf(InstallStream(env, n, p).0) == CoreOf(n)
  {
    hide SnapshotCodec.Decode, AdoptEnvelope, Installed;
  }

  // ---------------------------------------------------------------- every step

  /**
   * Every entry point keeps a sound node sound. What was committed stays in the log, and so it does
   * on disk after each durable write of the step.
   */
  lemma StepKeepsSound<S(!new)>(env: Env<S>, c0: Config, n: Node<S>, h: seq<Entry>, ev: Event) returns (h': seq<Entry>)
    requires Sound(env, c0, n, h) && Honest(env, c0, n, h, ev)
    ensures Onward(env, c0, n, h, React(env, n, ev), h')
  {
    hide Sound, Onward, StartElection, HandleVoteRequest, HandleVoteReply, HandleAppend, HandleAppendReply, HandleChunk,
         HandleChunkReply, SubmitCommand, SubmitJoint, SubmitJoin, BeginRead, PromoteJoiners, Promotion, Completed,
         FaithfulAll, Carries, AgreeTo, SafeLog, Authentic, Wrote;
    h' := h;
    match ev
    case Timeout => h' := TimeoutOnward(env, c0, n, h);
    case VoteRequested(req) =>
      VoteRequestWrites(n, req);
      SameCore(env, c0, n, HandleVoteRequest(n, req).0, h);
    case VoteAnswered(peer, reply) => h' := VoteReplyOnward(env, c0, n, h, peer, reply);
    case Appended(req) => h' := AppendedOnward(env, c0, n, h, req);
    case AppendAnswered(peer, reply) => h' := AppendReplyOnward(env, c0, n, h, peer, reply);
    case ChunkReceived(req) => h' := ChunkOnward(env, c0, n, h, req);
    case ChunkAnswered(peer, reply, next, done) => h' := ChunkReplyOnward(env, c0, n, h, peer, reply, next, done);
    case Submitted(command) => h' := SubmitOnward(env, c0, n, h, command);
    case JointProposed(members) => h' := JointOnward(env, c0, n, h, members);
    case JoinProposed(joiner) => h' := JoinOnward(env, c0, n, h, joiner);
    case Promoted => h' := PromoteOnward(env, c0, n, h);
    case ReadBegun(query, token) => h' := ReadOnward(env, c0, n, h, query, token);
  }

  lemma PromoteOnward<S(!new)>(env: Env<S>, c0: Config, n: Node<S>, h: seq<Entry>) returns (h': seq<Entry>)
    requires Sound(env, c0, n, h) && FaithfulAll(Promotion(n))
    ensures Onward(env, c0, n, h, PromoteJoiners(env, n), h')
  {
    hide Sound, Onward, SubmitJoint, Promotion, FaithfulAll;
    h' := h;
    Unmoved(env, c0, n, h);
    if PromoteJoiners(env, n) != n {
      h' := JointOnward(env, c0, n, h, Promotion(n));
    }
  }

  /** A node starts soundly from any disk whose log is backed: it has applied its snapshot and no more. */
  lemma BootIsSound<S(!new)>(env: Env<S>, c0: Config, me: Id, d: Disk, h: seq<Entry>)
    requires Backed(env, c0, d.log, h)
    ensures var b := Boot(env, me, c0, d);
            && b.Some? && Sound(env, c0, b.value, h) && b.value.commit == d.log.base
            && b.value.me == me && b.value.disk.log == d.log
  {
    hide SnapshotCodec.Decode, EnvelopeConfig, Listing, Contains, IsJoint, SafeConfig, SafeLog, Represents, Effective,
         Lawful, FoldConfig, Fold;
    var base := d.log.base;
    assert base <= |h| by {
      BackedBase(d.log, h);
    }
    if base > 0 {
      SafePrefix(h, base);
      FoldIsSafe(c0, h[..base]);
      EnvelopeNames(FoldConfig(c0, h[..base]), SnapshotCodec.Decode(d.log.image).value);
    } else {
      EmptyFolds(env.app, c0, h);
    }
  }

  lemma BackedBase(l: Log, h: seq<Entry>)
    requires Represents(l, h)
    ensures l.base <= |h|
  {
  }

  /** A sound node that stops and starts again is sound. */
  lemma RestartKeepsSound<S(!new)>(env: Env<S>, c0: Config, n: Node<S>, h: seq<Entry>)
    requires Sound(env, c0, n, h)
    ensures Boot(env, n.me, c0, n.disk).Some?
    ensures Sound(env, c0, Boot(env, n.me, c0, n.disk).value, h)
  {
    hide Sound, Boot, Backed;
    SoundBacked(env, c0, n, h);
    BootIsSound(env, c0, n.me, n.disk, h);
  }

  /**
   * Whichever durable write of a step is the last before a crash, the node starts again, soundly, with
   * a log that holds everything committed before the step.
   */
  lemma CrashKeepsSound<S(!new)>(env: Env<S>, c0: Config, n: Node<S>, h: seq<Entry>, ev: Event, k: nat)
    returns (h': seq<Entry>)
    requires Sound(env, c0, n, h) && Honest(env, c0, n, h, ev)
    requires |n.trail| <= k < |React(env, n, ev).trail|
    ensures var b := Boot(env, n.me, c0, React(env, n, ev).trail[k]);
            b.Some? && Sound(env, c0, b.value, h') && Kept(h, h', n.commit)
  {
    hide Sound, React, Honest, Boot, Backed, Kept;
    var r := React(env, n, ev);
    var a := StepKeepsSound(env, c0, n, h, ev);
    assert Recoverable(env, c0, h, n.commit, r.trail[k].log);
    h' :| Backed(env, c0, r.trail[k].log, h') && Kept(h, h', n.commit);
    BootIsSound(env, c0, n.me, r.trail[k], h');
  }

  lemma SafePrefix(h: seq<Entry>, k: nat)
    requires SafeLog(h) && k <= |h|
    ensures SafeLog(h[..k])
  {
    hide SafeEntry;
  }

  lemma EmptyFolds<S>(app: Machine<S>, c0: Config, h: seq<Entry>)
    ensures FoldConfig(c0, h[..0]) == c0 && Fold(app, h[..0]) == app.initial
  {
  }

  /**
   * The applied membership is the one the log prescribes at the applied index, and a snapshot on
   * disk restores the fold of the commands it covers.
   */
  lemma MembershipFollowsLog<S(!new)>(env: Env<S>, c0: Config, n: Node<S>, h: seq<Entry>)
    requires Sound(env, c0, n, h)
    ensures n.config == ConfigurationAt(n, n.applied) == FoldConfig(c0, h[..n.applied])
    ensures n.machine == Fold(env.app, h[..n.applied])
    ensures n.disk.log.base > 0 ==>
              && SnapshotCodec.Decode(n.disk.log.image).Some?
              && env.app.restore(SnapshotCodec.Decode(n.disk.log.image).value.state)
                 == Some(Fold(env.app, h[..n.disk.log.base]))
  {
    hide Ready, Represents, Fold, FoldConfig, SnapshotCodec.Decode;
    ConfigurationIsFold(env.app, c0, n, h, n.applied);
  }

  /** Cutting an uncommitted suffix, and any Joint in it, restores the configuration before it. */
  lemma TruncationRestores<S(!new)>(env: Env<S>, c0: Config, n: Node<S>, h: seq<Entry>, k: nat)
    requires Sound(env, c0, n, h) && n.commit <= k < |h|
    ensures var m := n.(disk := n.disk.(log := TruncateFrom(n.disk.log, k + 1)));
            Effective(m) == ConfigurationAt(n, k) == FoldConfig(c0, h[..k])
  {
    hide Ready, Fold, FoldConfig, ImageOk;
    TruncateRepresents(n.disk.log, h, k + 1);
    var m := n.(disk := n.disk.(log := TruncateFrom(n.disk.log, k + 1)));
    assert h[..k][..n.commit] == h[..n.commit];
    CoherentRelog(env.app, c0, CoreOf(n), h, m.disk.log, h[..k]);
    QueriesAgree(m.disk.log, h[..k]);
    ConfigurationIsFold(env.app, c0, m, h[..k], k);
    ConfigurationIsFold(env.app, c0, n, h, k);
    assert h[..k][..k] == h[..k];
  }
}
