/** `node.rs`: the node as it runs, each entry point against its function. */
module RaftNode {
  import opened Basics
  import opened RaftTypes
  import opened Membership
  import opened LogStore
  import opened Node
  import opened Handlers
  import SnapshotCodec
  import FollowerSimulation

  /** Term, vote and admission record survive a restart. */
  class InMemoryPersistentState {
    var term: nat
    var vote: Option<Id>
    var admission: Option<Admission>

    constructor (t: nat, v: Option<Id>, a: Option<Admission>)
      ensures term == t && vote == v && admission == a
    {
      term, vote, admission := t, v, a;
    }
  }

  // The node's fields, in the groups in which they change.

  datatype Standing = Standing(role: Role, term: nat, vote: Option<Id>, knownLeader: Option<Id>, votes: set<Id>)

  datatype Progress = Progress(next: map<Id, nat>, matched: map<Id, nat>, offsets: map<Id, nat>)

  datatype Known = Known(config: Config, snapConfig: Config, epoch: nat, decommissioned: bool)

  datatype Change = Change(finalizing: seq<Id>, fence: nat, pending: bool)

  datatype Joining = Joining(from: Option<Id>, joiners: map<Id, (Peer, nat)>)

  class RaftNode<S> {
    const env: Env<S>
    const me: Id
    const store: InMemoryPersistentState
    const log: InMemoryLogStore
    var standing: Standing
    var commit: nat
    var applied: nat
    var progress: Progress
    var known: Known
    var change: Change
    var joining: Joining
    var pending: Option<Pending>
    var readDomain: Option<nat>
    var machine: S
    /** Every durable write so far. */
    ghost var trail: seq<Disk>

    ghost function OnDisk(): Disk
      reads store, log
    {
      Disk(store.term, store.vote, store.admission, log.Contents())
    }

    ghost function View(): Node<S>
      reads this, store, log
    {
      Node(me, standing.role, standing.term, standing.vote, commit, applied,
           progress.next, progress.matched, progress.offsets,
           known.config, known.snapConfig, known.epoch, known.decommissioned, joining.from, joining.joiners,
           change.finalizing, change.fence, change.pending, standing.knownLeader, pending, standing.votes,
           readDomain, machine, OnDisk(), trail)
    }

    // -------------------------------------------------------------- starting

    /** A follower that has applied the stored snapshot and nothing else. */
    constructor (e: Env<S>, id: Id, c: Config, epoch: nat, from: Option<Id>, st: InMemoryPersistentState,
                 l: InMemoryLogStore, state: S)
      ensures env == e && store == st && log == l
      ensures View() == Fresh(id, c, epoch, from, state, Disk(st.term, st.vote, st.admission, l.Contents()))
    {
      env, me, store, log := e, id, st, l;
      standing := Standing(Follower, st.term, st.vote, from, {});
      commit, applied := l.snapshotIndex, l.snapshotIndex;
      progress := Progress(map[], map[], map[]);
      known := Known(c, c, epoch, false);
      change := Change(IdsOf(Listing(c.next)), if IsJoint(c) then l.snapshotIndex else 0, false);
      joining := Joining(from, map[]);
      pending, readDomain, machine := None, None, state;
      trail := [Disk(st.term, st.vote, st.admission, l.Contents())];
    }

    /** A node on what its predecessor left, unless the application cannot restore the snapshot. */
    static method Open(e: Env<S>, id: Id, initial: Config, st: InMemoryPersistentState, l: InMemoryLogStore)
      returns (n: Option<RaftNode<S>>)
      modifies st`admission
      ensures n.Some? <==> Boot(e, id, initial, old(Disk(st.term, st.vote, st.admission, l.Contents()))).Some?
      ensures n.Some? ==>
                fresh(n.value) && n.value.store == st && n.value.log == l
                && Boot(e, id, initial, old(Disk(st.term, st.vote, st.admission, l.Contents()))) == Some(n.value.View())
    {
      hide SnapshotCodec.Decode, EnvelopeConfig, Listing, Contains, IsJoint, IdsOf, Effective, Fresh;
      var base := l.snapshotIndex;
      var envelope := if base > 0 then SnapshotCodec.Decode(l.snapshotBytes) else None;
      var named := envelope.Some? && envelope.value.current != [];
      var c := if named then EnvelopeConfig(envelope.value) else initial;
      var restored :=
        if base == 0 then Some(e.app.initial)
        else e.app.restore(if envelope == None then l.snapshotBytes else envelope.value.state);
      if restored == None {
        return None;
      }
      var from := None;
      if st.admission.Some? {
        if named && base > st.admission.value.snapshotIndex && Contains(c, id) {
          st.admission := None;
        } else {
          from := Some(st.admission.value.anchor);
        }
      }
      var epoch := if !named then 0 else if envelope.value.epoch == 0 then base else envelope.value.epoch;
      var node := new RaftNode(e, id, c, epoch, from, st, l, restored.value);
      var effective := node.GetEffective();
      node.SetDecommissioned(!Contains(effective, id));
      return Some(node);
    }

    method SetDecommissioned(b: bool)
      modifies this`known
      ensures View() == old(View()).(decommissioned := b)
    {
      known := known.(decommissioned := b);
    }

    // -------------------------------------------------------------- durable writes

    method PersistTerm(t: nat)
      modifies this`trail, store`term
      ensures View() == Persist(old(View()), old(OnDisk()).(term := t))
    {
      store.term := t;
      trail := trail + [OnDisk()];
    }

    method PersistVote(v: Option<Id>)
      modifies this`trail, store`vote
      ensures View() == Persist(old(View()), old(OnDisk()).(vote := v))
    {
      store.vote := v;
      trail := trail + [OnDisk()];
    }

    method PersistAdmission(a: Option<Admission>)
      modifies this`trail, store`admission
      ensures View() == Persist(old(View()), old(OnDisk()).(admission := a))
    {
      store.admission := a;
      trail := trail + [OnDisk()];
    }

    method AppendLog(es: seq<Entry>)
      modifies this`trail, log
      ensures View() == PersistLog(old(View()), AppendAll(old(log.Contents()), es))
    {
      log.Append(es);
      trail := trail + [OnDisk()];
    }

    method TruncateLog(index: nat)
      modifies this`trail, log
      ensures View() == PersistLog(old(View()), TruncateFrom(old(log.Contents()), index))
    {
      log.Truncate(index);
      trail := trail + [OnDisk()];
    }

    method InstallLog(index: nat, t: nat, image: Bytes)
      modifies this`trail, log
      ensures View() == PersistLog(old(View()), InstallSnapshot(old(log.Contents()), index, t, image))
    {
      log.Install(index, t, image);
      trail := trail + [OnDisk()];
    }

    method AppendOwnEntry(command: Command)
      modifies this`trail, log
      ensures View() == AppendOwn(old(View()), command)
    {
      AppendLog([Entry(standing.term, me, command)]);
    }

    // -------------------------------------------------------------- configurations

    /** The snapshot's configuration, and every retained entry up to `index` in turn. */
    method GetConfigurationAt(index: nat) returns (c: Config)
      ensures c == ConfigurationAt(View(), index)
    {
      c := known.snapConfig;
      var l := log.entries;
      var k := Clamp(index - log.snapshotIndex, |l|);
      assert l[..0] == [];
      for i := 0 to k
        invariant c == FoldConfig(known.snapConfig, l[..i])
      {
        assert l[..i + 1][..i] == l[..i];
        c := ConfigAfter(c, l[i]);
      }
    }

    method GetEffective() returns (c: Config)
      ensures c == Effective(View())
    {
      var last := log.GetLastIndex();
      c := GetConfigurationAt(last);
    }

    // -------------------------------------------------------------- committing

    function MatchOf(p: Id): nat
      reads this
    {
      if p in progress.matched then progress.matched[p] else 0
    }

    /** Who is known to hold `index`. */
    method CountReplicated(c: Config, index: nat) returns (who: set<Id>)
      ensures who == Replicated(View(), c, index)
    {
      ghost var n := View();
      MatchIs();
      hide View, AllMembers, Holding, Replicated, MatchOf;
      who := {me};
      var rest := AllMembers(c);
      while rest != {}
        invariant who + Holding(n, rest, index) == {me} + Holding(n, AllMembers(c), index)
        decreases |rest|
      {
        var p :| p in rest;
        HoldingLess(n, rest, p, index);
        if p != me && MatchOf(p) >= index {
          who := who + {p};
        }
        rest := rest - {p};
      }
      HoldingNone(n, index);
      ReplicatedIs(n, c, index);
    }

    lemma MatchIs()
      ensures View().me == me && forall p :: MatchOf(p) == Matched(View(), p)
    {
    }

    method FinalizesHaveQuorum(index: nat, who: set<Id>) returns (ok: bool)
      requires who == Replicated(View(), ConfigurationAt(View(), index), index)
      ensures ok <==> FinalizesCarried(View(), index)
    {
      hide ConfigurationAt, HasJointMajority, Replicated, EntryAt;
      var position := commit + 1;
      while position <= index
        invariant commit < position
        invariant forall k: nat :: commit < k < position && k <= index && IsFinalizeAt(View().disk.log, k) ==>
                    HasJointMajority(ConfigurationAt(View(), k - 1), who)
        decreases index + 1 - position
      {
        var entry := log.GetEntryAt(position);
        if entry.Some? && entry.value.command == Finalize {
          var before := GetConfigurationAt(position - 1);
          if !HasJointMajority(before, who) {
            assert IsFinalizeAt(View().disk.log, position);
            return false;
          }
        }
        position := position + 1;
      }
      return true;
    }

    method FindCommit() returns (candidate: nat)
      ensures candidate == CommitScan(View(), LastIndex(log.Contents()))
    {
      hide ConfigurationAt, HasJointMajority, Replicated, FinalizesCarried, TermAt;
      candidate := commit;
      var last := log.GetLastIndex();
      var index := commit;
      if last <= commit {
        ScanFloor(View(), last);
        return;
      }
      while index < last
        invariant commit <= index <= last && candidate == CommitScan(View(), index)
      {
        index := index + 1;
        var t := log.GetTermAt(index);
        if t == standing.term {
          var c := GetConfigurationAt(index);
          var who := CountReplicated(c, index);
          var carried := FinalizesHaveQuorum(index, who);
          if HasJointMajority(c, who) && carried {
            candidate := index;
          }
        }
      }
    }

    // -------------------------------------------------------------- applying

    method TakeJoint(members: Proposal)
      modifies this`joining, this`change, this`known
      ensures View() == EnterJoint(old(View()), members)
    {
      hide TransitionTo, Contains, IdsOf, StillJoining;
      var c := TransitionTo(known.config, members);
      joining := joining.(joiners := StillJoining(joining.joiners, members));
      change := Change(IdsOf(members), applied, false);
      known := known.(config := c, epoch := applied, decommissioned := !Contains(c, me));
    }

    method DropJoint()
      modifies this`change, this`known
      ensures View() == FinishJoint(old(View()))
    {
      hide FinalizeTransition, Contains;
      var c := FinalizeTransition(known.config);
      change := Change([], 0, false);
      known := known.(config := c, epoch := applied, decommissioned := !Contains(c, me));
    }

    /** The membership is durable before the fence is lifted. */
    method EndAdmission()
      modifies this, store`admission, log
      ensures View() == Admit(env, old(View()))
    {
      hide Contains, InstallSnapshot, TermAt, Listing, SnapshotCodec.Wrap;
      if !Contains(known.config, me) || joining.from == None {
        return;
      }
      var c := known.config;
      var image := SnapshotCodec.Wrap(Listing(c.current), Listing(c.next), applied, env.app.snapshot(machine));
      var t := log.GetTermAt(applied);
      InstallLog(applied, t, image);
      known := known.(snapConfig := c);
      PersistAdmission(None);
      joining := joining.(from := None);
    }

    method LeaveOffice()
      modifies this`standing
      ensures View() == Resign(old(View()))
    {
      hide IsVoter;
      if !IsVoter(known.config, me) {
        standing := standing.(role := Follower, knownLeader := None, votes := {});
      }
    }

    method ForgetOthers()
      modifies this`progress
      ensures View() == ForgetStrangers(old(View()))
    {
      hide AllMembers, Among;
      var active := AllMembers(known.config);
      progress := Progress(Among(progress.next, active), Among(progress.matched, active), Among(progress.offsets, active));
    }

    method ApplyConfigurationCommand(command: Command)
      requires command.IsMembership()
      modifies this, store`admission, log
      ensures View() == Reconfigure(env, old(View()), command)
    {
      hide View, EnterJoint, FinishJoint, Admit, Resign, ForgetStrangers;
      if command.Joint? {
        TakeJoint(command.members);
      } else {
        DropJoint();
      }
      EndAdmission();
      LeaveOffice();
      ForgetOthers();
    }

    method CompactLocalSnapshot()
      modifies this, log
      ensures View() == MaybeCompact(env, old(View()))
    {
      hide InstallSnapshot, TermAt, Listing, SnapshotCodec.Wrap;
      if env.minEntries == 0 || commit == 0 || joining.joiners != map[] {
        return;
      }
      if commit <= log.snapshotIndex || commit - log.snapshotIndex < env.minEntries {
        return;
      }
      var c := known.config;
      var image := SnapshotCodec.Wrap(Listing(c.current), Listing(c.next), known.epoch, env.app.snapshot(machine));
      var t := log.GetTermAt(commit);
      InstallLog(commit, t, image);
      known := known.(snapConfig := c);
    }

    method ApplyPlainEntry(e: Entry)
      modifies this`machine, this`joining
      ensures View() == ApplyPlain(env, old(View()), e)
    {
      match e.command {
        case App(data) => machine := env.app.apply(machine, e.term, data);
        case Join(peer) => joining := joining.(joiners := joining.joiners[peer.id := (peer, applied)]);
        case _ =>
      }
    }

    /** One turn of the apply loop; a Joint may commit, and apply, more before it returns. */
    method ApplyEntry()
      requires applied < commit
      modifies this, store`admission, log
      ensures View() == ApplyNext(env, old(View()))
      decreases Joints(View()), 1, 0
    {
      hide Reconfigure, JointsAfter, EntryAt, MaybeAutoFinalize, ApplyPlain;
      ghost var n := View();
      JointsAfterNext(n.disk.log, n.applied);
      applied := applied + 1;
      var entry := log.GetEntryAt(applied);
      if entry == None {
        return;
      }
      var e := entry.value;
      if !e.command.IsMembership() {
        ApplyPlainEntry(e);
      } else {
        ghost var m := View();
        ReconfigureShrinks(env, m, e.command);
        ApplyConfigurationCommand(e.command);
        if e.command.Joint? {
          AutoFinalize();
        }
      }
    }

    method Apply()
      modifies this, store`admission, log
      ensures View() == ApplyCommitted(env, old(View()))
      decreases Joints(View()), 3, 0
    {
      hide ApplyNext, MaybeCompact, Joints, Lag;
      ghost var n := View();
      while applied < commit
        invariant ApplyLoop(env, View()) == ApplyLoop(env, n) && Joints(View()) <= Joints(n)
        decreases Joints(View()), Lag(View())
      {
        ApplyEntry();
      }
      CompactLocalSnapshot();
    }

    method Advance()
      modifies this, store`admission, log
      ensures View() == AdvanceCommit(env, old(View()))
      decreases Joints(View()), 4, 0
    {
      hide CommitScan, ApplyCommitted, JointsAfter;
      var candidate := FindCommit();
      if candidate > commit {
        commit := candidate;
        Apply();
      }
    }

    method AutoFinalize()
      modifies this, store`admission, log
      ensures View() == MaybeAutoFinalize(env, old(View()))
      decreases Joints(View()), 5, 0
    {
      hide AdvanceCommit, JointsAfter, IsJoint, AppendOwn;
      if standing.role != Leader || !IsJoint(known.config) || change.pending || change.finalizing == [] {
        return;
      }
      if change.fence == 0 || commit < change.fence
         || exists id :: id in change.finalizing && id != me && MatchOf(id) < change.fence {
        return;
      }
      AppendOwnJoints(View());
      AppendOwnEntry(Finalize);
      Advance();
      change := change.(pending := true);
    }

    // -------------------------------------------------------------- elections

    /** The later term is durable before the vote of the earlier one is erased. */
    method StepDownTo(t: nat)
      modifies this, store
      ensures View() == StepDown(old(View()), t)
    {
      pending := None;
      standing := standing.(term := t);
      PersistTerm(t);
      standing := standing.(role := Follower, vote := None, votes := {}, knownLeader := None);
      PersistVote(None);
    }

    method ElectSelf()
      modifies this, store, log
      ensures View() == BecomeLeader(env, old(View()))
    {
      hide AdvanceCommit, AppendOwn;
      TakeTheOffice();
      AppendOwnEntry(Noop);
      Advance();
    }

    /** Every other member starts over. */
    method TakeTheOffice()
      modifies this`standing, this`progress
      ensures View() == TakeOffice(old(View()))
    {
      var last := log.GetLastIndex();
      var effective := GetEffective();
      var others := AllMembers(effective) - {me};
      assert others == Others(View());
      hide Others, Effective, AllMembers, Restart;
      standing := standing.(role := Leader, knownLeader := Some(me), votes := {});
      progress := Progress(Restart(progress.next, others, last + 1), Restart(progress.matched, others, 0),
                           Restart(progress.offsets, others, 0));
    }

    method BeginCampaign()
      modifies this, store
      ensures View() == Campaign(old(View()))
    {
      var t := standing.term + 1;
      standing := standing.(role := Candidate, term := t);
      pending := None;
      PersistTerm(t);
      standing := standing.(vote := Some(me), knownLeader := None, votes := {me});
      PersistVote(Some(me));
    }

    /** The requests go to every other voter of the configuration in force. */
    method TimeOut() returns (request: Option<VoteRequest>)
      modifies this, store, log
      ensures View() == StartElection(env, old(View()))
      ensures request == if MayCampaign(old(View())) then Some(Solicit(old(View()))) else None
    {
      hide BecomeLeader, Campaign, HasJointMajority, Effective, IsVoter;
      var effective := GetEffective();
      if joining.from.Some? || !IsVoter(effective, me) {
        standing := standing.(role := Follower);
        return None;
      }
      var last := log.GetLastIndex();
      var lastTerm := log.GetLastTerm();
      request := Some(VoteRequest(standing.term + 1, me, last, lastTerm));
      BeginCampaign();
      effective := GetEffective();
      if HasJointMajority(effective, standing.votes) {
        ElectSelf();
      }
    }

    method OnVoteRequest(req: VoteRequest) returns (reply: VoteReply)
      modifies this, store
      ensures (View(), reply) == HandleVoteRequest(old(View()), req)
    {
      hide StepDown, Effective, IsVoter;
      if req.term > standing.term {
        StepDownTo(req.term);
      }
      ghost var n := View();
      var effective := GetEffective();
      var last := log.GetLastIndex();
      var lastTerm := log.GetLastTerm();
      var current := req.lastTerm > lastTerm || (req.lastTerm == lastTerm && req.lastIndex >= last);
      var eligible := req.term >= standing.term && joining.from == None && IsVoter(effective, me)
                      && IsVoter(effective, req.candidate);
      var granted := eligible && (standing.vote == None || standing.vote == Some(req.candidate)) && current;
      assert granted == Grants(n, req);
      reply := VoteReply(me, standing.term, granted);
      if granted {
        standing := standing.(vote := Some(req.candidate));
        PersistVote(Some(req.candidate));
      }
    }

    method OnVoteReply(peer: Id, resp: VoteReply)
      modifies this, store, log
      ensures View() == HandleVoteReply(env, old(View()), peer, resp)
    {
      hide StepDown, BecomeLeader, Effective, IsVoter, HasJointMajority;
      if standing.role != Candidate {
        return;
      }
      if resp.term > standing.term {
        StepDownTo(resp.term);
        return;
      }
      var effective := GetEffective();
      if resp.term != standing.term || !resp.granted || !IsVoter(effective, peer) {
        return;
      }
      standing := standing.(votes := standing.votes + {peer});
      effective := GetEffective();
      if HasJointMajority(effective, standing.votes) {
        ElectSelf();
      }
    }

    // -------------------------------------------------------------- following a leader

    predicate RefusesLeader(t: nat, leader: Id)
      reads this
    {
      || leader == me
      || (!IsVoter(known.config, leader) && joining.from != Some(leader))
      || (t == standing.term && standing.role == Follower && standing.knownLeader != None
          && standing.knownLeader != Some(leader))
    }

    method FollowLeader(t: nat, leader: Id)
      modifies this, store
      ensures View() == Follow(old(View()), t, leader)
    {
      hide StepDown;
      if t > standing.term {
        StepDownTo(t);
      } else if standing.role != Follower {
        standing := standing.(role := Follower, votes := {});
      }
      standing := standing.(knownLeader := Some(leader));
    }

    /** Skip what agrees; cut at the first conflict; append what is missing. */
    method MergeEntries(prev: nat, entries: seq<Entry>)
      modifies this`trail, log
      ensures View() == MergeNode(old(View()), prev, entries)
    {
      hide View, TermAt, TruncateFrom, AppendAll;
      ghost var n, l := View(), log.Contents();
      ViewLog();
      for i := 0 to |entries|
        invariant View() == n && log.Contents() == l
        invariant Merge(l, prev, entries, 0) == Merge(l, prev, entries, i)
        invariant ConflictAt(l, prev, entries, 0) == ConflictAt(l, prev, entries, i)
      {
        var index := prev + 1 + i;
        var last := log.GetLastIndex();
        if index > last {
          AppendLog(entries[i..]);
          MergeAppends(n, prev, entries, i);
          return;
        }
        var t := log.GetTermAt(index);
        if t != entries[i].term {
          TruncateLog(index);
          ViewLog();
          AppendLog(entries[i..]);
          MergeCuts(n, prev, entries, i);
          return;
        }
      }
    }

    lemma ViewLog()
      ensures View().disk == OnDisk() && View().disk.log == log.Contents()
    {
    }

    method ReplicateEntries(prev: nat, prevTerm: nat, entries: seq<Entry>, leaderCommit: nat) returns (reply: AppendReply)
      modifies this, store`admission, log
      ensures (View(), reply) == Replicate(env, old(View()), prev, prevTerm, entries, leaderCommit)
    {
      hide MergeNode, ApplyCommitted, TermAt;
      ghost var n := View();
      var t := standing.term;
      var last := log.GetLastIndex();
      if prev > last {
        return AppendReply(me, t, false, last);
      }
      if prev > 0 {
        var found := log.GetTermAt(prev);
        if found != prevTerm {
          return AppendReply(me, t, false, prev);
        }
      }
      ReplicateIs(env, n, prev, prevTerm, entries, leaderCommit);
      assert n.me == me && n.term == t;
      hide View, Replicate;
      MergeEntries(prev, entries);
      var end := prev + |entries|;
      LearnCommit(if leaderCommit < end then leaderCommit else end);
      reply := AppendReply(me, t, true, end);
    }

    method LearnCommit(c: nat)
      modifies this, store`admission, log
      ensures View() == if c > old(View()).commit then ApplyCommitted(env, old(View()).(commit := c)) else old(View())
    {
      hide ApplyCommitted;
      if c > commit {
        commit := c;
        Apply();
      }
    }

    method OnAppend(req: AppendRequest) returns (reply: AppendReply)
      modifies this, store, log
      ensures (View(), reply) == HandleAppend(env, old(View()), req)
    {
      hide Follow, Replicate, IsVoter;
      if req.term < standing.term {
        return AppendReply(me, standing.term, false, 0);
      }
      if RefusesLeader(req.term, req.leader) {
        var last := log.GetLastIndex();
        return AppendReply(me, standing.term, false, last);
      }
      FollowLeader(req.term, req.leader);
      var base, baseTerm := log.snapshotIndex, log.snapshotTerm;
      if req.prevIndex < base {
        var overlap := base - req.prevIndex;
        if |req.entries| < overlap {
          return AppendReply(me, standing.term, true, base);
        }
        if req.entries[overlap - 1].term != baseTerm {
          return AppendReply(me, standing.term, false, base);
        }
        reply := ReplicateEntries(base, baseTerm, req.entries[overlap..], req.commit);
      } else {
        reply := ReplicateEntries(req.prevIndex, req.prevTerm, req.entries, req.commit);
      }
    }

    // -------------------------------------------------------------- receiving a snapshot

    /** The stream a chunk belongs to: chunk zero opens one, a foreign chunk ends the old one. */
    method ChooseStream(req: Chunk) returns (s: Option<Pending>)
      ensures s == StreamFor(View(), req)
    {
      if req.offset == 0 {
        return Some(Pending(req.leader, req.term, req.lastIndex, req.lastTerm, 0, []));
      }
      if pending.Some? && (pending.value.leader != req.leader || pending.value.term != req.term) {
        return None;
      }
      return pending;
    }

    method TakeSnapshot(p: Pending, state: S)
      modifies this, log
      ensures View() == Installed(old(View()), p, state)
    {
      hide InstallSnapshot;
      InstallLog(p.lastIndex, p.lastTerm, p.data);
      commit, applied, machine := p.lastIndex, p.lastIndex, state;
    }

    /** Membership carried by a snapshot, if it carries any. */
    method TakeEnvelope(e: SnapshotCodec.Envelope, index: nat)
      modifies this, store`admission
      ensures View() == AdoptEnvelope(old(View()), e, index)
    {
      hide EnvelopeConfig, Contains, IsJoint, Listing, IdsOf;
      if e.current == [] {
        return;
      }
      var c := EnvelopeConfig(e);
      known := Known(c, c, if e.epoch == 0 then index else e.epoch, !Contains(c, me));
      if !known.decommissioned {
        PersistAdmission(None);
        joining := joining.(from := None);
      }
      change := Change(IdsOf(Listing(c.next)), if IsJoint(c) then index else 0, false);
    }

    /** A complete stream: nothing moves unless the application can restore it. */
    method InstallPending(p: Pending) returns (reply: ChunkReply)
      modifies this, store`admission, log
      ensures (View(), reply) == InstallStream(env, old(View()), p)
    {
      hide SnapshotCodec.Decode, Installed, AdoptEnvelope;
      ghost var n := View();
      var e := SnapshotCodec.Decode(p.data);
      var restored := env.app.restore(if e == None then p.data else e.value.state);
      if restored == None {
        pending := None;
        return ChunkReply(me, standing.term, false, p.lastIndex, 0, false);
      }
      reply := ChunkReply(me, standing.term, true, p.lastIndex, p.offset, true);
      TakeSnapshot(p, restored.value);
      if e.Some? {
        TakeEnvelope(e.value, p.lastIndex);
      }
      pending := None;
    }

    method Receive(req: Chunk) returns (reply: ChunkReply)
      modifies this, store`admission, log
      ensures (View(), reply) == ReceiveChunk(env, old(View()), req)
    {
      hide StreamFor, Continues, InstallStream;
      var s := ChooseStream(req);
      if s == None {
        pending := None;
        return ChunkReply(me, standing.term, false, req.lastIndex, 0, false);
      }
      var p := s.value;
      if !Continues(p, req) {
        pending := s;
        return ChunkReply(me, standing.term, false, req.lastIndex, p.offset, false);
      }
      if |p.data| + |req.data| > MAX_SNAPSHOT_BYTES {
        pending := None;
        return ChunkReply(me, standing.term, false, req.lastIndex, 0, false);
      }
      var q := p.(offset := p.offset + |req.data|, data := p.data + req.data);
      pending := Some(q);
      if req.done {
        reply := InstallPending(q);
      } else {
        reply := ChunkReply(me, standing.term, true, req.lastIndex, q.offset, false);
      }
    }

    method OnChunk(req: Chunk) returns (reply: ChunkReply)
      modifies this, store, log
      ensures (View(), reply) == HandleChunk(env, old(View()), req)
    {
      hide Follow, ReceiveChunk, IsVoter;
      if req.term < standing.term {
        return ChunkReply(me, standing.term, false, req.lastIndex, 0, false);
      }
      if RefusesLeader(req.term, req.leader) {
        return ChunkReply(me, standing.term, false, log.snapshotIndex, 0, false);
      }
      FollowLeader(req.term, req.leader);
      if req.lastIndex <= commit {
        pending := None;
        return ChunkReply(me, standing.term, true, req.lastIndex, req.offset + |req.data|, true);
      }
      reply := Receive(req);
    }

    // -------------------------------------------------------------- leading

    predicate AcceptsReplyFrom(peer: Id, reported: Id, effective: Config)
      reads this
    {
      peer == reported && peer != me && (Contains(effective, peer) || peer in joining.joiners)
    }

    method RecordMatch(peer: Id, index: nat)
      modifies this`progress
      ensures View() == RecordProgress(old(View()), peer, index)
    {
      var confirmed := Max(MatchOf(peer), index);
      var next := if peer in progress.next then progress.next[peer] else 1;
      progress := progress.(matched := progress.matched[peer := confirmed],
                            next := progress.next[peer := Max(next, confirmed + 1)]);
    }

    method BackOffFrom(peer: Id)
      modifies this`progress
      ensures View() == BackOff(old(View()), peer)
    {
      if peer in progress.next {
        progress := progress.(next := progress.next[peer := Max(progress.next[peer] as int - 1, MatchOf(peer) + 1)]);
      }
    }

    method OnAppendReply(peer: Id, resp: AppendReply)
      modifies this, store, log
      ensures View() == HandleAppendReply(env, old(View()), peer, resp)
    {
      hide StepDown, BackOff, RecordProgress, AdvanceCommit, MaybeAutoFinalize, Effective, Contains;
      var effective := GetEffective();
      if standing.role != Leader || !AcceptsReplyFrom(peer, resp.peer, effective) {
        return;
      }
      if resp.term > standing.term {
        StepDownTo(resp.term);
        return;
      }
      if resp.term != standing.term {
        return;
      }
      if !resp.success {
        BackOffFrom(peer);
        return;
      }
      var last := log.GetLastIndex();
      if resp.matchIndex > last {
        return;
      }
      RecordMatch(peer, resp.matchIndex);
      Advance();
      AutoFinalize();
    }

    method SetOffset(peer: Id, offset: nat)
      modifies this`progress
      ensures View() == old(View()).(offsets := old(View()).offsets[peer := offset])
    {
      progress := progress.(offsets := progress.offsets[peer := offset]);
    }

    method OnChunkReply(peer: Id, resp: ChunkReply, sentNext: nat, sentDone: bool)
      modifies this, store, log
      ensures View() == HandleChunkReply(env, old(View()), peer, resp, sentNext, sentDone)
    {
      hide StepDown, RecordProgress, AdvanceCommit, Effective, Contains;
      var effective := GetEffective();
      if !AcceptsReplyFrom(peer, resp.peer, effective) {
        return;
      }
      if resp.term > standing.term {
        StepDownTo(resp.term);
        return;
      }
      if standing.role != Leader || resp.term != standing.term {
        return;
      }
      if !resp.success {
        SetOffset(peer, resp.nextOffset);
        return;
      }
      var last := log.GetLastIndex();
      if resp.lastIndex > last {
        return;
      }
      if sentDone && resp.done {
        ghost var n := View();
        RecordMatch(peer, resp.lastIndex);
        RecordKeepsOffsets(n, peer, resp.lastIndex);
        SetOffset(peer, 0);
        Advance();
      } else {
        SetOffset(peer, sentNext);
      }
    }

    /** A snapshot chunk, or every entry the peer may lack. */
    method Beat(peer: Id) returns (out: Outbound)
      ensures out == Heartbeat(env, View(), peer)
    {
      hide TermAt, EntriesFrom;
      var ni := if peer in progress.next then progress.next[peer] else 1;
      var base := log.snapshotIndex;
      if base > 0 && ni <= base {
        var image := log.snapshotBytes;
        var offset := if peer in progress.offsets then progress.offsets[peer] else 0;
        var end := Min(offset + env.chunkBytes, |image|);
        if offset <= end {
          return SendChunk(Chunk(standing.term, me, base, log.snapshotTerm, offset, image[offset..end], end == |image|));
        }
        return SendNothing;
      }
      var prev := Max(ni as int - 1, 0);
      var t := log.GetTermAt(prev);
      var entries := log.GetEntriesFrom(ni);
      return SendAppend(AppendRequest(standing.term, me, prev, t, commit, entries));
    }

    method Submit(command: Command) returns (r: Result<nat>)
      modifies this, store, log
      ensures (View(), r) == SubmitCommand(env, old(View()), command)
    {
      hide AdvanceCommit, AppendOwn;
      if standing.role != Leader {
        return Err(NotLeader);
      }
      if SizeOf(env, command) > MAX_COMMAND_BYTES {
        return Err(TooLarge);
      }
      AppendOwnEntry(command);
      var last := log.GetLastIndex();
      Advance();
      return Ok(last);
    }

    method ChangeIsUnderway() returns (found: bool)
      ensures found == ChangeUnderway(View())
    {
      hide EntryAt;
      var last := log.GetLastIndex();
      var index := commit + 1;
      while index <= last
        invariant commit < index
        invariant forall k: nat :: commit < k < index && k <= last ==> !MembershipAt(log.Contents(), k)
        decreases last + 1 - index
      {
        var entry := log.GetEntryAt(index);
        if entry.Some? && entry.value.command.IsMembership() {
          assert MembershipAt(log.Contents(), index);
          return true;
        }
        index := index + 1;
      }
      return false;
    }

    method ProposeJoint(members: Proposal) returns (r: Result<nat>)
      modifies this, store, log
      ensures (View(), r) == SubmitJoint(env, old(View()), members)
    {
      hide SubmitCommand, MaybeAutoFinalize, ChangeUnderway, IsJoint;
      var underway := ChangeIsUnderway();
      if IsJoint(known.config) || change.pending || underway {
        return Err(ConfigInProgress);
      }
      r := Submit(Joint(members));
      if r.Ok? {
        AutoFinalize();
      }
    }

    method FindJoin(id: Id) returns (at: Option<nat>)
      ensures at == JoinIndex(log.Contents(), id, log.snapshotIndex + 1)
    {
      hide EntryAt;
      var last := log.GetLastIndex();
      var index := log.snapshotIndex + 1;
      while index <= last
        invariant JoinIndex(log.Contents(), id, log.snapshotIndex + 1) == JoinIndex(log.Contents(), id, index)
        decreases last + 1 - index
      {
        var e := log.GetEntryAt(index);
        if e.Some? && e.value.command.Join? && e.value.command.peer.id == id {
          return Some(index);
        }
        index := index + 1;
      }
      return None;
    }

    method ProposeJoin(peer: Peer) returns (r: Result<nat>)
      modifies this, store, log
      ensures (View(), r) == SubmitJoin(env, old(View()), peer)
    {
      hide SubmitCommand, JoinIndex, Contains;
      if Contains(known.config, peer.id) {
        return Ok(commit);
      }
      if peer.id in joining.joiners {
        return Ok(joining.joiners[peer.id].1);
      }
      var at := FindJoin(peer.id);
      if at.Some? {
        return Ok(at.value);
      }
      r := Submit(Join(peer));
    }

    /** Record first, then a clean log, then a clean vote. */
    method StartJoining(anchor: Id)
      modifies this, store, log
      ensures View() == BeginJoining(env, old(View()), anchor)
    {
      PersistAdmission(Some(Admission(anchor, log.snapshotIndex)));
      ClearState();
      PersistVote(None);
      standing := standing.(role := Follower, knownLeader := Some(anchor), votes := {});
      joining := joining.(from := Some(anchor));
    }

    method ClearState()
      modifies this, log
      ensures View() == PersistLog(old(View()).(readDomain := None), EMPTY)
                .(machine := env.app.initial, commit := 0, applied := 0, epoch := 0,
                  next := map[], matched := map[], offsets := map[], joiners := map[],
                  finalizing := [], fence := 0, finalizePending := false, pending := None, vote := None)
    {
      ResetLog();
      machine, commit, applied := env.app.initial, 0, 0;
      ForgetEverything();
    }

    method ResetLog()
      modifies this, log
      ensures View() == PersistLog(old(View()).(readDomain := None), EMPTY)
    {
      readDomain := None;
      log.Reset();
      trail := trail + [OnDisk()];
    }

    method ForgetEverything()
      modifies this
      ensures View() == old(View()).(epoch := 0, next := map[], matched := map[], offsets := map[], joiners := map[],
                                     finalizing := [], fence := 0, finalizePending := false, pending := None, vote := None)
    {
      known := known.(epoch := 0);
      progress := Progress(map[], map[], map[]);
      ForgetStanding();
    }

    method ForgetStanding()
      modifies this
      ensures View() == old(View()).(joiners := map[], finalizing := [], fence := 0, finalizePending := false,
                                     pending := None, vote := None)
    {
      joining := joining.(joiners := map[]);
      change := Change([], 0, false);
      ForgetVote();
    }

    method ForgetVote()
      modifies this
      ensures View() == old(View()).(pending := None, vote := None)
    {
      pending := None;
      standing := standing.(vote := None);
    }

    // -------------------------------------------------------------- reads

    method StartRead(query: Bytes, token: nat) returns (r: Result<PendingRead>)
      modifies this, store, log
      ensures (View(), r) == BeginRead(env, old(View()), query, token)
    {
      hide AdvanceCommit, AppendOwn, IsVoter;
      if standing.role != Leader || joining.from.Some? || known.decommissioned || !IsVoter(known.config, me) {
        return Err(NotLeader);
      }
      if |query| > MAX_COMMAND_BYTES {
        return Err(TooLarge);
      }
      var domain := if readDomain == None then token else readDomain.value;
      var last := log.GetLastIndex();
      r := Ok(PendingRead(domain, standing.term, last + 1, known.epoch, query));
      SetReadDomain(domain);
      AppendOwnEntry(Noop);
      Advance();
    }

    method SetReadDomain(domain: nat)
      modifies this`readDomain
      ensures View() == old(View()).(readDomain := Some(domain))
    {
      readDomain := Some(domain);
    }

    method Query(read: PendingRead) returns (r: Result<Bytes>)
      ensures r == HandleQuery(env, View(), read)
    {
      hide TermAt;
      if standing.role != Leader || standing.term != read.term || joining.from.Some? || known.decommissioned {
        return Err(NotLeader);
      }
      if known.epoch != read.epoch || readDomain != Some(read.domain) {
        return Err(ReadBarrier);
      }
      var t := log.GetTermAt(commit);
      if commit >= read.index && applied == commit && t == read.term {
        return Ok(env.app.query(machine, read.query));
      }
      return Err(ReadBarrier);
    }
  }

  lemma MergeAppends<S>(n: Node<S>, prev: nat, entries: seq<Entry>, i: nat)
    requires i < |entries| && prev + 1 + i > LastIndex(n.disk.log)
    requires Merge(n.disk.log, prev, entries, 0) == Merge(n.disk.log, prev, entries, i)
    requires ConflictAt(n.disk.log, prev, entries, 0) == ConflictAt(n.disk.log, prev, entries, i)
    ensures MergeNode(n, prev, entries) == PersistLog(n, AppendAll(n.disk.log, entries[i..]))
  {
    var l := n.disk.log;
    assert |AppendAll(l, entries[i..]).entries| > |l.entries|;
  }

  lemma MergeCuts<S>(n: Node<S>, prev: nat, entries: seq<Entry>, i: nat)
    requires i < |entries| && prev + 1 + i <= LastIndex(n.disk.log)
    requires TermAt(n.disk.log, prev + 1 + i) != entries[i].term
    requires Merge(n.disk.log, prev, entries, 0) == Merge(n.disk.log, prev, entries, i)
    requires ConflictAt(n.disk.log, prev, entries, 0) == ConflictAt(n.disk.log, prev, entries, i)
    ensures var l := TruncateFrom(n.disk.log, prev + 1 + i);
            MergeNode(n, prev, entries) == PersistLog(PersistLog(n, l), AppendAll(l, entries[i..]))
  {
    hide TermAt, TruncateFrom;
    var l := TruncateFrom(n.disk.log, prev + 1 + i);
    assert |AppendAll(l, entries[i..]).entries| > |l.entries|;
  }

  lemma ReplicateIs<S>(env: Env<S>, n: Node<S>, prev: nat, prevTerm: nat, entries: seq<Entry>, leaderCommit: nat)
    requires prev <= LastIndex(n.disk.log) && (prev > 0 ==> TermAt(n.disk.log, prev) == prevTerm)
    ensures var m := MergeNode(n, prev, entries);
            var end := prev + |entries|;
            var c := if leaderCommit < end then leaderCommit else end;
            Replicate(env, n, prev, prevTerm, entries, leaderCommit)
              == (if c > m.commit then ApplyCommitted(env, m.(commit := c)) else m, AppendReply(n.me, n.term, true, end))
  {
    hide MergeNode, ApplyCommitted, TermAt;
    FollowerSimulation.MergeFields(n, prev, entries);
  }

  lemma RecordKeepsOffsets<S>(n: Node<S>, peer: Id, index: nat)
    ensures RecordProgress(n, peer, index).offsets == n.offsets
  {
  }

  ghost function Holding<S>(n: Node<S>, ids: set<Id>, index: nat): set<Id> {
    set p | p in ids && p != n.me && Matched(n, p) >= index
  }

  lemma HoldingNone<S>(n: Node<S>, index: nat)
    ensures Holding(n, {}, index) == {}
  {
  }

  lemma HoldingLess<S>(n: Node<S>, ids: set<Id>, p: Id, index: nat)
    requires p in ids
    ensures Holding(n, ids, index) == Holding(n, ids - {p}, index) + if p != n.me && Matched(n, p) >= index then {p} else {}
  {
  }

  lemma ReplicatedIs<S>(n: Node<S>, c: Config, index: nat)
    ensures Replicated(n, c, index) == {n.me} + Holding(n, AllMembers(c), index)
  {
  }

  lemma ScanFloor<S>(n: Node<S>, hi: nat)
    requires hi <= n.commit
    ensures CommitScan(n, hi) == n.commit
  {
  }
}
