/** A leader's bookkeeping about its peers, under any events in any order for as long as it leads. */
module Progress {
  import opened Basics
  import opened RaftTypes
  import opened Membership
  import opened LogStore
  import opened Node
  import opened Handlers
  import opened Coherence
  import opened NodeRuns
  import FollowerSimulation
  import SnapshotCodec

  // ---------------------------------------------------------------- what application keeps

  /** Snapshot boundary, applied, committed and last index are in order. */
  ghost predicate WellPlaced<S>(n: Node<S>) {
    n.disk.log.base <= n.applied <= n.commit <= LastIndex(n.disk.log)
  }

  ghost predicate Within(a: map<Id, nat>, b: map<Id, nat>) {
    forall p :: p in a ==> p in b && a[p] == b[p]
  }

  /** Peers may be forgotten, in both maps together; nothing else about them changes. */
  ghost predicate Narrows<S>(n: Node<S>, r: Node<S>) {
    && Within(r.matched, n.matched) && Within(r.next, n.next)
    && (forall p :: p in r.matched && p in n.next ==> p in r.next)
    && (forall p :: p in r.next && p in n.matched ==> p in r.matched)
  }

  /** Applying entries never loses a log entry, moves no term and makes no leader. */
  ghost predicate Follows<S>(n: Node<S>, r: Node<S>) {
    && WellPlaced(r) && Narrows(n, r)
    && LastIndex(n.disk.log) <= LastIndex(r.disk.log)
    && r.term == n.term && r.me == n.me && (r.role == n.role || r.role == Follower)
  }

  lemma FollowsTrans<S>(n: Node<S>, m: Node<S>, r: Node<S>)
    requires Follows(n, m) && Follows(m, r)
    ensures Follows(n, r)
  {
  }

  lemma InstallKeepsLast(l: Log, index: nat, image: Bytes)
    requires 0 < index && l.base <= index <= LastIndex(l)
    ensures LastIndex(InstallSnapshot(l, index, TermAt(l, index), image)) == LastIndex(l)
    ensures InstallSnapshot(l, index, TermAt(l, index), image).base == index
  {
  }

  lemma AdoptFollows<S>(n: Node<S>, command: Command)
    requires command.IsMembership() && WellPlaced(n)
    ensures Follows(n, AdoptConfig(n, command)) && AdoptConfig(n, command).applied == n.applied
  {
    hide TransitionTo, FinalizeTransition, Contains;
  }

  lemma AdmitLog<S>(env: Env<S>, n: Node<S>)
    requires WellPlaced(n) && n.applied > 0
    ensures var l := Admit(env, n).disk.log; LastIndex(l) == LastIndex(n.disk.log) && l.base <= n.applied
  {
    hide InstallSnapshot, Seal, Contains;
    InstallKeepsLast(n.disk.log, n.applied, Seal(env, n, n.applied));
  }

  lemma AdmitFollows<S>(env: Env<S>, n: Node<S>)
    requires WellPlaced(n) && n.applied > 0
    ensures Follows(n, Admit(env, n))
  {
    hide Admit;
    AdmitLog(env, n);
  }

  lemma ResignFollows<S>(n: Node<S>)
    requires WellPlaced(n)
    ensures Follows(n, Resign(n))
  {
    hide IsVoter;
  }

  lemma ForgetFollows<S>(n: Node<S>)
    requires WellPlaced(n)
    ensures Follows(n, ForgetStrangers(n))
  {
    hide AllMembers;
  }

  lemma ReconfigureFollows<S>(env: Env<S>, n: Node<S>, command: Command)
    requires command.IsMembership() && WellPlaced(n) && n.applied > 0
    ensures Follows(n, Reconfigure(env, n, command))
  {
    hide Narrows, AdoptConfig, Admit, Resign, ForgetStrangers;
    var a := AdoptConfig(n, command);
    AdoptFollows(n, command);
    AdmitFollows(env, a);
    FollowsTrans(n, a, Admit(env, a));
    ResignFollows(Admit(env, a));
    FollowsTrans(n, Admit(env, a), Resign(Admit(env, a)));
    ForgetFollows(Resign(Admit(env, a)));
    FollowsTrans(n, Resign(Admit(env, a)), Reconfigure(env, n, command));
  }

  lemma CompactFollows<S>(env: Env<S>, n: Node<S>)
    requires WellPlaced(n) && n.applied == n.commit
    ensures Follows(n, MaybeCompact(env, n))
  {
    hide InstallSnapshot, Seal;
    if n.commit > 0 {
      InstallKeepsLast(n.disk.log, n.commit, Seal(env, n, n.epoch));
    }
  }

  lemma PlainFollows<S>(env: Env<S>, n: Node<S>, m: Node<S>, e: Entry)
    requires WellPlaced(n) && n.applied < n.commit && m == n.(applied := n.applied + 1)
    ensures Follows(n, m) && Follows(n, ApplyPlain(env, m, e))
  {
    hide ApplyPlain;
  }

  lemma {:induction false} ApplyNextFollows<S>(env: Env<S>, n: Node<S>)
    requires WellPlaced(n) && n.applied < n.commit
    ensures Follows(n, ApplyNext(env, n))
    decreases Joints(n), 1, 0
  {
    hide Follows, Reconfigure, MaybeAutoFinalize, JointsAfter, ApplyPlain;
    var m := n.(applied := n.applied + 1);
    var e := EntryAt(n.disk.log, n.applied + 1).value;
    PlainFollows(env, n, m, e);
    if e.command.IsMembership() {
      var c := Reconfigure(env, m, e.command);
      ReconfigureFollows(env, m, e.command);
      FollowsTrans(n, m, c);
      if e.command.Joint? {
        JointsAfterNext(n.disk.log, n.applied);
        ReconfigureShrinks(env, m, e.command);
        FollowsPlaced(n, c);
        AutoFinalizeFollows(env, c);
        FollowsTrans(n, c, MaybeAutoFinalize(env, c));
      }
    }
  }

  lemma FollowsPlaced<S>(n: Node<S>, r: Node<S>)
    requires Follows(n, r)
    ensures WellPlaced(r)
  {
  }

  lemma {:induction false} ApplyLoopFollows<S>(env: Env<S>, n: Node<S>)
    requires WellPlaced(n)
    ensures Follows(n, ApplyLoop(env, n))
    decreases Joints(n), 2, Lag(n)
  {
    hide ApplyNext, Joints, Narrows;
    if n.applied < n.commit {
      ApplyNextFollows(env, n);
      ApplyLoopFollows(env, ApplyNext(env, n));
      FollowsTrans(n, ApplyNext(env, n), ApplyLoop(env, n));
    } else {
      SelfFollows(n);
    }
  }

  lemma SelfFollows<S>(n: Node<S>)
    requires WellPlaced(n)
    ensures Follows(n, n)
  {
  }

  lemma {:induction false} ApplyFollows<S>(env: Env<S>, n: Node<S>)
    requires WellPlaced(n)
    ensures Follows(n, ApplyCommitted(env, n))
    decreases Joints(n), 3, 0
  {
    hide ApplyLoop, Joints, Narrows, MaybeCompact;
    ApplyLoopFollows(env, n);
    CompactFollows(env, ApplyLoop(env, n));
    FollowsTrans(n, ApplyLoop(env, n), ApplyCommitted(env, n));
  }

  lemma {:induction false} AdvanceFollows<S>(env: Env<S>, n: Node<S>)
    requires WellPlaced(n)
    ensures Follows(n, AdvanceCommit(env, n))
    decreases Joints(n), 4, 0
  {
    hide ApplyCommitted, JointsAfter, Narrows, CommitScan;
    var c := CommitScan(n, LastIndex(n.disk.log));
    ScanInLog(n);
    SelfFollows(n);
    if c > n.commit {
      var m := n.(commit := c);
      ApplyFollows(env, m);
      CommitFollows(n, c);
      FollowsTrans(n, m, AdvanceCommit(env, n));
    }
  }

  lemma CommitFollows<S>(n: Node<S>, c: nat)
    requires WellPlaced(n) && n.commit <= c <= LastIndex(n.disk.log)
    ensures Follows(n, n.(commit := c))
  {
  }

  lemma ScanInLog<S>(n: Node<S>)
    requires WellPlaced(n)
    ensures CommitScan(n, LastIndex(n.disk.log)) <= LastIndex(n.disk.log)
  {
    hide CommitScan;
    ScanAtMost(n, LastIndex(n.disk.log));
  }

  lemma {:induction false} ScanAtMost<S>(n: Node<S>, hi: nat)
    ensures CommitScan(n, hi) <= Max(hi, n.commit)
  {
    hide Commits;
    if hi > n.commit && !Commits(n, hi) {
      ScanAtMost(n, hi - 1);
    }
  }

  lemma AppendFollows<S>(n: Node<S>, command: Command)
    requires WellPlaced(n)
    ensures Follows(n, AppendOwn(n, command))
  {
  }

  lemma {:induction false} AutoFinalizeFollows<S>(env: Env<S>, n: Node<S>)
    requires WellPlaced(n)
    ensures Follows(n, MaybeAutoFinalize(env, n))
    decreases Joints(n), 5, 0
  {
    hide AdvanceCommit, JointsAfter, Narrows, IsJoint, AppendOwn;
    SelfFollows(n);
    if MaybeAutoFinalize(env, n) != n {
      var m := AppendOwn(n, Finalize);
      AppendFollows(n, Finalize);
      AppendOwnJoints(n);
      AdvanceFollows(env, m);
      FollowsTrans(n, m, AdvanceCommit(env, m));
      FlagFollows(n, AdvanceCommit(env, m));
    }
  }

  lemma FlagFollows<S>(n: Node<S>, r: Node<S>)
    requires Follows(n, r)
    ensures Follows(n, r.(finalizePending := true))
  {
  }

  // ---------------------------------------------------------------- progress

  /** For the peers in `ps`: what they confirmed, what is sent next and the log's end are in order. */
  ghost predicate Tracked<S>(n: Node<S>, ps: set<Id>) {
    forall p :: p in ps ==>
      && (p in n.matched <==> p in n.next)
      && (p in n.matched ==> n.matched[p] < n.next[p] <= LastIndex(n.disk.log) + 1)
  }

  ghost predicate NeverBack<S>(n: Node<S>, r: Node<S>) {
    forall p :: p in n.matched && p in r.matched ==> n.matched[p] <= r.matched[p]
  }

  /** One step of a leadership, whether or not it ends it. */
  ghost predicate Advances<S>(n: Node<S>, r: Node<S>, ps: set<Id>) {
    Tracked(r, ps) && NeverBack(n, r) && WellPlaced(r)
  }

  lemma FollowsAdvances<S>(n: Node<S>, m: Node<S>, r: Node<S>, ps: set<Id>)
    requires Advances(n, m, ps) && Follows(m, r)
    ensures Advances(n, r, ps)
  {
  }

  lemma SelfAdvances<S>(n: Node<S>, ps: set<Id>)
    requires WellPlaced(n) && Tracked(n, ps)
    ensures Advances(n, n, ps)
  {
  }

  lemma RecordAdvances<S>(n: Node<S>, peer: Id, index: nat, offsets: map<Id, nat>, ps: set<Id>)
    requires WellPlaced(n) && Tracked(n, ps) && index <= LastIndex(n.disk.log)
    ensures Advances(n, RecordProgress(n, peer, index).(offsets := offsets), ps)
  {
  }

  lemma BackOffAdvances<S>(n: Node<S>, peer: Id, ps: set<Id>)
    requires WellPlaced(n) && Tracked(n, ps)
    ensures Advances(n, BackOff(n, peer), ps)
  {
  }

  lemma StepDownAdvances<S>(n: Node<S>, t: nat, ps: set<Id>)
    requires WellPlaced(n) && Tracked(n, ps)
    ensures Advances(n, StepDown(n, t), ps)
  {
  }

  /** Any append reply: genuine or not, fresh or late, from whomever. */
  lemma AppendReplyAdvances<S>(env: Env<S>, n: Node<S>, peer: Id, reply: AppendReply, ps: set<Id>)
    requires WellPlaced(n) && Tracked(n, ps)
    ensures Advances(n, HandleAppendReply(env, n, peer, reply), ps)
  {
    hide Advances, WellPlaced, Tracked, AcceptsReply, StepDown, BackOff, RecordProgress, AdvanceCommit, MaybeAutoFinalize,
         LastIndex;
    SelfAdvances(n, ps);
    StepDownAdvances(n, reply.term, ps);
    BackOffAdvances(n, peer, ps);
    if reply.matchIndex <= LastIndex(n.disk.log) {
      var m := RecordProgress(n, peer, reply.matchIndex);
      RecordAdvances(n, peer, reply.matchIndex, m.offsets, ps);
      AdvancesPlaced(n, m, ps);
      AdvanceFollows(env, m);
      FollowsPlaced(m, AdvanceCommit(env, m));
      AutoFinalizeFollows(env, AdvanceCommit(env, m));
      FollowsTrans(m, AdvanceCommit(env, m), MaybeAutoFinalize(env, AdvanceCommit(env, m)));
      FollowsAdvances(n, m, MaybeAutoFinalize(env, AdvanceCommit(env, m)), ps);
    }
  }

  lemma AdvancesPlaced<S>(n: Node<S>, r: Node<S>, ps: set<Id>)
    requires Advances(n, r, ps)
    ensures WellPlaced(r) && Tracked(r, ps)
  {
  }

  lemma OffsetsAdvance<S>(n: Node<S>, offsets: map<Id, nat>, ps: set<Id>)
    requires WellPlaced(n) && Tracked(n, ps)
    ensures Advances(n, n.(offsets := offsets), ps)
  {
  }

  lemma ChunkReplyAdvances<S>(
    env: Env<S>, n: Node<S>, peer: Id, reply: ChunkReply, next: nat, done: bool, ps: set<Id>)
    requires WellPlaced(n) && Tracked(n, ps)
    ensures Advances(n, HandleChunkReply(env, n, peer, reply, next, done), ps)
  {
    hide Advances, WellPlaced, Tracked, AcceptsReply, StepDown, RecordProgress, AdvanceCommit, LastIndex;
    SelfAdvances(n, ps);
    StepDownAdvances(n, reply.term, ps);
    OffsetsAdvance(n, n.offsets[peer := reply.nextOffset], ps);
    OffsetsAdvance(n, n.offsets[peer := next], ps);
    if reply.lastIndex <= LastIndex(n.disk.log) {
      var m := RecordProgress(n, peer, reply.lastIndex).(offsets := n.offsets[peer := 0]);
      RecordAdvances(n, peer, reply.lastIndex, m.offsets, ps);
      AdvancesPlaced(n, m, ps);
      AdvanceFollows(env, m);
      FollowsAdvances(n, m, AdvanceCommit(env, m), ps);
    }
  }

  /** A leader's own entry, and what it commits. */
  lemma AppendedAdvances<S>(env: Env<S>, n: Node<S>, command: Command, ps: set<Id>)
    requires WellPlaced(n) && Tracked(n, ps)
    ensures Advances(n, AdvanceCommit(env, AppendOwn(n, command)), ps)
  {
    hide Advances, AppendOwn, AdvanceCommit, Narrows, Tracked;
    SelfAdvances(n, ps);
    AppendFollows(n, command);
    AdvanceFollows(env, AppendOwn(n, command));
    FollowsTrans(n, AppendOwn(n, command), AdvanceCommit(env, AppendOwn(n, command)));
    FollowsAdvances(n, n, AdvanceCommit(env, AppendOwn(n, command)), ps);
  }

  lemma SubmitAdvances<S>(env: Env<S>, n: Node<S>, command: Command, ps: set<Id>)
    requires WellPlaced(n) && Tracked(n, ps)
    ensures Advances(n, SubmitCommand(env, n, command).0, ps)
  {
    hide Advances, AppendOwn, AdvanceCommit, WellPlaced, Tracked;
    SelfAdvances(n, ps);
    AppendedAdvances(env, n, command, ps);
  }

  lemma JointAdvances<S>(env: Env<S>, n: Node<S>, members: Proposal, ps: set<Id>)
    requires WellPlaced(n) && Tracked(n, ps)
    ensures Advances(n, SubmitJoint(env, n, members).0, ps)
  {
    hide Advances, SubmitCommand, MaybeAutoFinalize, WellPlaced, Tracked, ChangeUnderway, IsJoint;
    SelfAdvances(n, ps);
    SubmitAdvances(env, n, Joint(members), ps);
    var m := SubmitCommand(env, n, Joint(members)).0;
    AdvancesPlaced(n, m, ps);
    AutoFinalizeFollows(env, m);
    FollowsAdvances(n, m, MaybeAutoFinalize(env, m), ps);
  }

  lemma JoinAdvances<S>(env: Env<S>, n: Node<S>, peer: Peer, ps: set<Id>)
    requires WellPlaced(n) && Tracked(n, ps)
    ensures Advances(n, SubmitJoin(env, n, peer).0, ps)
  {
    hide Advances, SubmitCommand, WellPlaced, Tracked, JoinIndex, Contains;
    SelfAdvances(n, ps);
    SubmitAdvances(env, n, Join(peer), ps);
  }

  lemma ReadAdvances<S>(env: Env<S>, n: Node<S>, query: Bytes, token: nat, ps: set<Id>)
    requires WellPlaced(n) && Tracked(n, ps)
    ensures Advances(n, BeginRead(env, n, query, token).0, ps)
  {
    hide Advances, AppendOwn, AdvanceCommit, IsVoter;
    SelfAdvances(n, ps);
    var domain := if n.readDomain == None then token else n.readDomain.value;
    var m := n.(readDomain := Some(domain));
    AppendedAdvances(env, m, Noop, ps);
    DomainAdvances(n, domain, AdvanceCommit(env, AppendOwn(m, Noop)), ps);
  }

  lemma DomainAdvances<S>(n: Node<S>, domain: nat, r: Node<S>, ps: set<Id>)
    requires Advances(n.(readDomain := Some(domain)), r, ps)
    ensures Advances(n, r, ps)
  {
  }

  /** Taking office resets every other member of the configuration in force. */
  lemma OfficeTracks<S>(env: Env<S>, n: Node<S>)
    requires WellPlaced(n)
    ensures WellPlaced(BecomeLeader(env, n)) && Tracked(BecomeLeader(env, n), Others(n))
  {
    hide AdvanceCommit, AppendOwn, Others, NeverBack;
    assert Tracked(TakeOffice(n), Others(n));
    AppendedAdvances(env, TakeOffice(n), Noop, Others(n));
  }

  // ---------------------------------------------------------------- leaving office

  lemma ApplyNextRole<S>(env: Env<S>, n: Node<S>)
    requires n.applied < n.commit && n.role != Leader
    ensures ApplyNext(env, n).role != Leader
  {
    hide Reconfigure, MaybeAutoFinalize, ApplyPlain, EntryAt;
    var m := n.(applied := n.applied + 1);
    var e := EntryAt(n.disk.log, n.applied + 1);
    if e.Some? && e.value.command.IsMembership() {
      ReconfigureRole(env, m, e.value.command);
      FollowersNeverFinalize(env, Reconfigure(env, m, e.value.command));
    }
  }

  lemma {:induction false} ApplyLoopRole<S>(env: Env<S>, n: Node<S>)
    requires n.role != Leader
    ensures ApplyLoop(env, n).role != Leader
    decreases Joints(n), Lag(n)
  {
    hide ApplyNext, Joints;
    if n.applied < n.commit {
      ApplyNextRole(env, n);
      ApplyLoopRole(env, ApplyNext(env, n));
    }
  }

  lemma ApplyRole<S>(env: Env<S>, n: Node<S>)
    requires n.role != Leader
    ensures ApplyCommitted(env, n).role != Leader
  {
    hide ApplyLoop, InstallSnapshot, Seal;
    ApplyLoopRole(env, n);
  }

  lemma MergeRole<S>(n: Node<S>, prev: nat, es: seq<Entry>)
    ensures MergeNode(n, prev, es).role == n.role
  {
    hide MergeNode;
    FollowerSimulation.MergeFields(n, prev, es);
  }

  lemma ReplicateRole<S>(env: Env<S>, n: Node<S>, prev: nat, prevTerm: nat, es: seq<Entry>, commit: nat)
    requires n.role != Leader
    ensures Replicate(env, n, prev, prevTerm, es, commit).0.role != Leader
  {
    hide ApplyCommitted, MergeNode;
    MergeRole(n, prev, es);
    ApplyRole(env, MergeNode(n, prev, es).(commit := Min(commit, prev + |es|)));
  }

  /** An append that is not refused ends an office. */
  lemma AppendedRole<S>(env: Env<S>, n: Node<S>, req: AppendRequest)
    ensures var r := HandleAppend(env, n, req).0; r == n || r.role != Leader
  {
    hide Replicate, Refuses, StepDown;
    if n.term <= req.term && !Refuses(n, req.term, req.leader) {
      var m := Follow(n, req.term, req.leader);
      StepDownRole(n, req.term);
      var l := m.disk.log;
      if req.prevIndex < l.base {
        if l.base - req.prevIndex <= |req.entries| {
          ReplicateRole(env, m, l.base, l.baseTerm, req.entries[l.base - req.prevIndex..], req.commit);
        }
      } else {
        ReplicateRole(env, m, req.prevIndex, req.prevTerm, req.entries, req.commit);
      }
    }
  }

  lemma StepDownRole<S>(n: Node<S>, t: nat)
    ensures StepDown(n, t).role == Follower
  {
  }

  lemma AdoptRole<S>(n: Node<S>, e: SnapshotCodec.Envelope, index: nat)
    ensures AdoptEnvelope(n, e, index).role == n.role
  {
    hide EnvelopeConfig, Contains, Listing, IsJoint, IdsOf;
  }

  lemma InstalledRole<S>(n: Node<S>, p: Pending, state: S)
    ensures Installed(n, p, state).role == n.role
  {
    hide InstallSnapshot;
  }

  lemma InstallRole<S>(env: Env<S>, n: Node<S>, p: Pending)
    ensures InstallStream(env, n, p).0.role == n.role
  {
    hide SnapshotCodec.Decode, AdoptEnvelope, Installed;
    var e := SnapshotCodec.Decode(p.data);
    var restored := env.app.restore(if e == None then p.data else e.value.state);
    if restored.Some? {
      InstalledRole(n, p, restored.value);
      if e.Some? {
        AdoptRole(Installed(n, p, restored.value), e.value, p.lastIndex);
      }
    }
  }

  lemma ReceiveRole<S>(env: Env<S>, n: Node<S>, req: Chunk)
    ensures ReceiveChunk(env, n, req).0.role == n.role
  {
    hide InstallStream, StreamFor, Continues;
    var s := StreamFor(n, req);
    if s.Some? {
      var q := s.value.(offset := s.value.offset + |req.data|, data := s.value.data + req.data);
      InstallRole(env, n.(pending := Some(q)), q);
    }
  }

  /** So does a chunk. */
  lemma ChunkRole<S>(env: Env<S>, n: Node<S>, req: Chunk)
    ensures var r := HandleChunk(env, n, req).0; r == n || r.role != Leader
  {
    hide ReceiveChunk, Refuses, StepDown;
    if n.term <= req.term && !Refuses(n, req.term, req.leader) {
      StepDownRole(n, req.term);
      ReceiveRole(env, Follow(n, req.term, req.leader), req);
    }
  }

  /** And so does an election timeout: the node follows, or its term is a later one. */
  lemma TimeoutEnds<S>(env: Env<S>, n: Node<S>)
    requires WellPlaced(n)
    ensures var r := StartElection(env, n); r.role != Leader || r.term == n.term + 1
  {
    hide AdvanceCommit, HasJointMajority, Effective, MayCampaign, Others, Narrows;
    var m := TakeOffice(Campaign(n));
    AppendFollows(m, Noop);
    AdvanceFollows(env, AppendOwn(m, Noop));
  }

  lemma VoteRequestAdvances<S>(n: Node<S>, req: VoteRequest, ps: set<Id>)
    requires WellPlaced(n) && Tracked(n, ps)
    ensures Advances(n, HandleVoteRequest(n, req).0, ps)
  {
    hide Grants, StepDown, Advances, WellPlaced, Tracked;
    SelfAdvances(n, ps);
    StepDownAdvances(n, req.term, ps);
    var m := if req.term > n.term then StepDown(n, req.term) else n;
    VoteAdvances(n, m, req.candidate, ps);
  }

  lemma VoteAdvances<S>(n: Node<S>, m: Node<S>, candidate: Id, ps: set<Id>)
    requires Advances(n, m, ps)
    ensures Advances(n, Persist(m.(vote := Some(candidate)), m.disk.(vote := Some(candidate))), ps)
  {
  }

  lemma PromoteAdvances<S>(env: Env<S>, n: Node<S>, ps: set<Id>)
    requires WellPlaced(n) && Tracked(n, ps)
    ensures Advances(n, PromoteJoiners(env, n), ps)
  {
    hide Advances, SubmitJoint, WellPlaced, Tracked, CaughtUp, Promotion, IsJoint;
    SelfAdvances(n, ps);
    if PromoteJoiners(env, n) != n {
      JointAdvances(env, n, Promotion(n), ps);
    }
  }

  // ---------------------------------------------------------------- whole leaderships

  /** Replies, submissions, promotions, reads and vote requests, even those that end an office. */
  predicate Duty(ev: Event) {
    !(ev.Timeout? || ev.VoteAnswered? || ev.Appended? || ev.ChunkReceived?)
  }

  ghost predicate InOffice<S>(n: Node<S>, r: Node<S>) {
    n.role == Leader && r.role == Leader && r.term == n.term
  }

  lemma DutyAdvances<S>(env: Env<S>, n: Node<S>, ev: Event, ps: set<Id>)
    requires WellPlaced(n) && Tracked(n, ps) && Duty(ev)
    ensures Advances(n, React(env, n, ev), ps)
  {
    hide Advances, WellPlaced, Tracked, HandleAppendReply, HandleChunkReply, SubmitCommand, SubmitJoint, SubmitJoin,
         BeginRead, HandleVoteRequest, PromoteJoiners;
    match ev
    case VoteRequested(req) => VoteRequestAdvances(n, req, ps);
    case AppendAnswered(peer, reply) => AppendReplyAdvances(env, n, peer, reply, ps);
    case ChunkAnswered(peer, reply, next, done) => ChunkReplyAdvances(env, n, peer, reply, next, done, ps);
    case Submitted(command) => SubmitAdvances(env, n, command, ps);
    case JointProposed(members) => JointAdvances(env, n, members, ps);
    case JoinProposed(joiner) => JoinAdvances(env, n, joiner, ps);
    case Promoted => PromoteAdvances(env, n, ps);
    case ReadBegun(query, token) => ReadAdvances(env, n, query, token, ps);
  }

  /** Any event at all that leaves the node the leader of its term. */
  lemma OfficeAdvances<S>(env: Env<S>, n: Node<S>, ev: Event, ps: set<Id>)
    requires WellPlaced(n) && Tracked(n, ps) && InOffice(n, React(env, n, ev))
    ensures Advances(n, React(env, n, ev), ps)
  {
    hide Advances, WellPlaced, Tracked, StartElection, HandleVoteRequest, HandleAppend, HandleChunk, HandleAppendReply,
         HandleChunkReply, SubmitCommand, SubmitJoint, SubmitJoin, BeginRead, PromoteJoiners, BecomeLeader;
    SelfAdvances(n, ps);
    match ev
    case Timeout => TimeoutEnds(env, n);
    case VoteAnswered(peer, reply) =>
    case Appended(req) => AppendedRole(env, n, req);
    case ChunkReceived(req) => ChunkRole(env, n, req);
    case _ => DutyAdvances(env, n, ev, ps);
  }

  /** From taking office on, through any events in any order, for as long as the node leads. */
  ghost predicate Leadership<S>(env: Env<S>, n: Node<S>, ns: seq<Node<S>>) {
    && ns != [] && ns[0] == BecomeLeader(env, n)
    && forall i :: 0 <= i < |ns| - 1 ==> Performs(env, ns[i], ns[i + 1])
  }

  ghost predicate Performs<S>(env: Env<S>, n: Node<S>, r: Node<S>) {
    exists ev :: r == React(env, n, ev) && (Duty(ev) || InOffice(n, r))
  }

  lemma PerformsAdvances<S>(env: Env<S>, n: Node<S>, r: Node<S>, ps: set<Id>)
    requires WellPlaced(n) && Tracked(n, ps) && Performs(env, n, r)
    ensures Advances(n, r, ps)
  {
    hide WellPlaced, Tracked, React, Advances, InOffice;
    var ev :| r == React(env, n, ev) && (Duty(ev) || InOffice(n, r));
    if Duty(ev) {
      DutyAdvances(env, n, ev, ps);
    } else {
      OfficeAdvances(env, n, ev, ps);
    }
  }

  lemma {:induction false} LeadershipTracked<S>(env: Env<S>, n: Node<S>, ns: seq<Node<S>>, i: nat)
    requires WellPlaced(n) && Leadership(env, n, ns) && i < |ns|
    ensures WellPlaced(ns[i]) && Tracked(ns[i], Others(n))
    decreases i
  {
    hide WellPlaced, Tracked, Performs, BecomeLeader, Others;
    if i == 0 {
      OfficeTracks(env, n);
    } else {
      LeadershipTracked(env, n, ns, i - 1);
      assert Performs(env, ns[i - 1], ns[i - 1 + 1]);
      PerformsAdvances(env, ns[i - 1], ns[i], Others(n));
      AdvancesPlaced(ns[i - 1], ns[i], Others(n));
    }
  }

  /** What a peer confirmed never goes back while the leader keeps track of it. */
  lemma {:induction false} MatchNeverDecreases<S>(env: Env<S>, n: Node<S>, ns: seq<Node<S>>, i: nat, j: nat, p: Id)
    requires WellPlaced(n) && Leadership(env, n, ns) && i <= j < |ns|
    requires forall k :: i <= k <= j ==> p in ns[k].matched
    ensures ns[i].matched[p] <= ns[j].matched[p]
    decreases j
  {
    hide WellPlaced, Tracked, Performs, BecomeLeader, Others;
    if i < j {
      MatchNeverDecreases(env, n, ns, i, j - 1, p);
      LeadershipTracked(env, n, ns, j - 1);
      assert Performs(env, ns[j - 1], ns[j - 1 + 1]);
      PerformsAdvances(env, ns[j - 1], ns[j], Others(n));
      assert p in ns[j - 1].matched;
    }
  }
}
