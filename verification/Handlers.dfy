/** The entry points of `RaftNode`, branch by branch. */
module Handlers {
  import opened Basics
  import opened RaftTypes
  import opened Membership
  import opened LogStore
  import opened Node
  import SnapshotCodec

  // ---------------------------------------------------------------- elections

  function Others<S>(n: Node<S>): set<Id> {
    AllMembers(Effective(n)) - {n.me}
  }

  function Restart(m: map<Id, nat>, ids: set<Id>, v: nat): map<Id, nat> {
    m + map p | p in ids :: v
  }

  /** The node that takes office, before it writes its first entry: every other member starts over. */
  function TakeOffice<S>(n: Node<S>): Node<S> {
    var last := LastIndex(n.disk.log);
    n.(role := Leader, knownLeader := Some(n.me), votes := {},
       next := Restart(n.next, Others(n), last + 1),
       matched := Restart(n.matched, Others(n), 0),
       offsets := Restart(n.offsets, Others(n), 0))
  }

  function BecomeLeader<S>(env: Env<S>, n: Node<S>): Node<S> {
    AdvanceCommit(env, AppendOwn(TakeOffice(n), Noop))
  }

  predicate MayCampaign<S>(n: Node<S>) {
    n.joiningFrom == None && IsVoter(Effective(n), n.me)
  }

  /** The next term and the vote for oneself, durable one after the other. */
  function Campaign<S>(n: Node<S>): Node<S> {
    var m := Persist(n.(role := Candidate, pending := None, term := n.term + 1), n.disk.(term := n.term + 1));
    Persist(m.(vote := Some(n.me), knownLeader := None, votes := {n.me}), m.disk.(vote := Some(n.me)))
  }

  function StartElection<S>(env: Env<S>, n: Node<S>): Node<S> {
    if !MayCampaign(n) then n.(role := Follower)
    else
      var c := Campaign(n);
      if HasJointMajority(Effective(c), c.votes) then BecomeLeader(env, c) else c
  }

  /** The request a campaigning node sends to every other voter. */
  function Solicit<S>(n: Node<S>): VoteRequest {
    VoteRequest(n.term + 1, n.me, LastIndex(n.disk.log), LastTermIn(n.disk.log))
  }

  predicate LogIsCurrent(req: VoteRequest, l: Log) {
    || req.lastTerm > LastTermIn(l)
    || (req.lastTerm == LastTermIn(l) && req.lastIndex >= LastIndex(l))
  }

  predicate Grants<S>(n: Node<S>, req: VoteRequest) {
    && req.term >= n.term
    && n.joiningFrom == None
    && IsVoter(Effective(n), n.me)
    && IsVoter(Effective(n), req.candidate)
    && (n.vote == None || n.vote == Some(req.candidate))
    && LogIsCurrent(req, n.disk.log)
  }

  function HandleVoteRequest<S>(n: Node<S>, req: VoteRequest): (Node<S>, VoteReply) {
    var m := if req.term > n.term then StepDown(n, req.term) else n;
    if Grants(m, req) then
      (Persist(m.(vote := Some(req.candidate)), m.disk.(vote := Some(req.candidate))),
       VoteReply(m.me, m.term, true))
    else
      (m, VoteReply(m.me, m.term, false))
  }

  function HandleVoteReply<S>(env: Env<S>, n: Node<S>, peer: Id, resp: VoteReply): Node<S> {
    if n.role != Candidate then n
    else if resp.term > n.term then StepDown(n, resp.term)
    else if resp.term != n.term || !resp.granted || !IsVoter(Effective(n), peer) then n
    else
      var m := n.(votes := n.votes + {peer});
      if HasJointMajority(Effective(m), m.votes) then BecomeLeader(env, m) else m
  }

  // ---------------------------------------------------------------- following a leader

  /** A request from oneself, from a stranger, or from a second leader of the term. */
  predicate Refuses<S>(n: Node<S>, term: nat, leader: Id) {
    || leader == n.me
    || (!IsVoter(n.config, leader) && n.joiningFrom != Some(leader))
    || (term == n.term && n.role == Follower && n.knownLeader != None && n.knownLeader != Some(leader))
  }

  /** Take `leader` as the leader of `term`; the vote survives within a term. */
  function Follow<S>(n: Node<S>, term: nat, leader: Id): Node<S> {
    var m :=
      if term > n.term then StepDown(n, term)
      else if n.role != Follower then n.(role := Follower, votes := {})
      else n;
    m.(knownLeader := Some(leader))
  }

  /** Skip what agrees; cut at the first conflict; append what is missing. */
  function Merge(l: Log, prev: nat, entries: seq<Entry>, i: nat): Log
    requires i <= |entries|
    decreases |entries| - i
  {
    if i == |entries| then l
    else
      var index := prev + 1 + i;
      if index > LastIndex(l) then AppendAll(l, entries[i..])
      else if TermAt(l, index) != entries[i].term then AppendAll(TruncateFrom(l, index), entries[i..])
      else Merge(l, prev, entries, i + 1)
  }

  /** The first entry at which a merge cuts the log, if there is one. */
  function ConflictAt(l: Log, prev: nat, entries: seq<Entry>, i: nat): Option<nat>
    requires i <= |entries|
    decreases |entries| - i
  {
    if i == |entries| || prev + 1 + i > LastIndex(l) then None
    else if TermAt(l, prev + 1 + i) != entries[i].term then Some(prev + 1 + i)
    else ConflictAt(l, prev, entries, i + 1)
  }

  /** The merge with its durable writes: a cut is one, an append another. */
  function MergeNode<S>(n: Node<S>, prev: nat, entries: seq<Entry>): Node<S> {
    var l := n.disk.log;
    var cut := ConflictAt(l, prev, entries, 0);
    var m := if cut == None then n else PersistLog(n, TruncateFrom(l, cut.value));
    if Merge(l, prev, entries, 0) == m.disk.log then m else PersistLog(m, Merge(l, prev, entries, 0))
  }

  function Replicate<S>(env: Env<S>, n: Node<S>, prev: nat, prevTerm: nat, entries: seq<Entry>, leaderCommit: nat)
    : (Node<S>, AppendReply)
  {
    var l := n.disk.log;
    if prev > LastIndex(l) then (n, AppendReply(n.me, n.term, false, LastIndex(l)))
    else if prev > 0 && TermAt(l, prev) != prevTerm then (n, AppendReply(n.me, n.term, false, prev))
    else
      var m := MergeNode(n, prev, entries);
      var last := prev + |entries|;
      var commit := Min(leaderCommit, last);
      (if commit > n.commit then ApplyCommitted(env, m.(commit := commit)) else m,
       AppendReply(n.me, n.term, true, last))
  }

  /** A request that starts inside the compacted prefix is moved up to the snapshot boundary. */
  function AppendBody<S>(env: Env<S>, n: Node<S>, req: AppendRequest): (Node<S>, AppendReply) {
    var l := n.disk.log;
    if req.prevIndex < l.base then
      var overlap := l.base - req.prevIndex;
      if |req.entries| < overlap then (n, AppendReply(n.me, n.term, true, l.base))
      else if req.entries[overlap - 1].term != l.baseTerm then (n, AppendReply(n.me, n.term, false, l.base))
      else Replicate(env, n, l.base, l.baseTerm, req.entries[overlap..], req.commit)
    else Replicate(env, n, req.prevIndex, req.prevTerm, req.entries, req.commit)
  }

  function HandleAppend<S>(env: Env<S>, n: Node<S>, req: AppendRequest): (Node<S>, AppendReply) {
    if req.term < n.term then (n, AppendReply(n.me, n.term, false, 0))
    else if Refuses(n, req.term, req.leader) then
      (n, AppendReply(n.me, n.term, false, LastIndex(n.disk.log)))
    else AppendBody(env, Follow(n, req.term, req.leader), req)
  }

  // ---------------------------------------------------------------- receiving a snapshot

  /** The stream a chunk belongs to: chunk zero opens one, a foreign chunk ends the old one. */
  function StreamFor<S>(n: Node<S>, req: Chunk): Option<Pending> {
    if req.offset == 0 then Some(Pending(req.leader, req.term, req.lastIndex, req.lastTerm, 0, []))
    else if n.pending != None && (n.pending.value.leader != req.leader || n.pending.value.term != req.term) then None
    else n.pending
  }

  predicate Continues(p: Pending, req: Chunk) {
    && req.leader == p.leader && req.term == p.term
    && req.lastIndex == p.lastIndex && req.lastTerm == p.lastTerm && req.offset == p.offset
  }

  /** Membership carried by a snapshot, if it carries any. */
  function AdoptEnvelope<S>(n: Node<S>, e: SnapshotCodec.Envelope, index: nat): Node<S> {
    if e.current == [] then n
    else
      var c := EnvelopeConfig(e);
      var m := n.(config := c, snapConfig := c,
                  epoch := if e.epoch == 0 then index else e.epoch,
                  decommissioned := !Contains(c, n.me));
      var k := if m.decommissioned then m else Persist(m, m.disk.(admission := None)).(joiningFrom := None);
      var next := Listing(c.next);
      k.(finalizing := IdsOf(next),
         fence := if IsJoint(c) then index else 0,
         finalizePending := false)
  }

  /** The log and the state that a snapshot brings. */
  function Installed<S>(n: Node<S>, p: Pending, state: S): Node<S> {
    PersistLog(n, InstallSnapshot(n.disk.log, p.lastIndex, p.lastTerm, p.data))
      .(commit := p.lastIndex, applied := p.lastIndex, machine := state)
  }

  /** A complete stream: nothing moves unless the application can restore it. */
  function InstallStream<S>(env: Env<S>, n: Node<S>, p: Pending): (Node<S>, ChunkReply) {
    var e := SnapshotCodec.Decode(p.data);
    var restored := env.app.restore(if e == None then p.data else e.value.state);
    if restored == None then
      (n.(pending := None), ChunkReply(n.me, n.term, false, p.lastIndex, 0, false))
    else
      var m := Installed(n, p, restored.value);
      var k := if e == None then m else AdoptEnvelope(m, e.value, p.lastIndex);
      (k.(pending := None), ChunkReply(n.me, n.term, true, p.lastIndex, p.offset, true))
  }

  function ReceiveChunk<S>(env: Env<S>, n: Node<S>, req: Chunk): (Node<S>, ChunkReply) {
    var s := StreamFor(n, req);
    var m := n.(pending := s);
    if s == None then (m, ChunkReply(n.me, n.term, false, req.lastIndex, 0, false))
    else
      var p := s.value;
      if !Continues(p, req) then (m, ChunkReply(n.me, n.term, false, req.lastIndex, p.offset, false))
      else if |p.data| + |req.data| > MAX_SNAPSHOT_BYTES then
        (n.(pending := None), ChunkReply(n.me, n.term, false, req.lastIndex, 0, false))
      else
        var q := p.(offset := p.offset + |req.data|, data := p.data + req.data);
        if req.done then InstallStream(env, n.(pending := Some(q)), q)
        else (n.(pending := Some(q)), ChunkReply(n.me, n.term, true, req.lastIndex, q.offset, false))
  }

  function HandleChunk<S>(env: Env<S>, n: Node<S>, req: Chunk): (Node<S>, ChunkReply) {
    if req.term < n.term then (n, ChunkReply(n.me, n.term, false, req.lastIndex, 0, false))
    else if Refuses(n, req.term, req.leader) then
      (n, ChunkReply(n.me, n.term, false, n.disk.log.base, 0, false))
    else
      var m := Follow(n, req.term, req.leader);
      if req.lastIndex <= m.commit then
        (m.(pending := None), ChunkReply(m.me, m.term, true, req.lastIndex, req.offset + |req.data|, true))
      else ReceiveChunk(env, m, req)
  }

  // ---------------------------------------------------------------- leading

  predicate AcceptsReply<S>(n: Node<S>, peer: Id, reported: Id) {
    peer == reported && peer != n.me && (Contains(Effective(n), peer) || peer in n.joiners)
  }

  function Next<S>(n: Node<S>, peer: Id): nat {
    if peer in n.next then n.next[peer] else 1
  }

  /** Keep the strongest acknowledgement of this leadership. */
  function RecordProgress<S>(n: Node<S>, peer: Id, index: nat): Node<S> {
    var confirmed := Max(Matched(n, peer), index);
    n.(matched := n.matched[peer := confirmed], next := n.next[peer := Max(Next(n, peer), confirmed + 1)])
  }

  function BackOff<S>(n: Node<S>, peer: Id): Node<S> {
    if peer !in n.next then n
    else n.(next := n.next[peer := Max(n.next[peer] as int - 1, Matched(n, peer) + 1)])
  }

  function HandleAppendReply<S>(env: Env<S>, n: Node<S>, peer: Id, resp: AppendReply): Node<S> {
    if n.role != Leader || !AcceptsReply(n, peer, resp.peer) then n
    else if resp.term > n.term then StepDown(n, resp.term)
    else if resp.term != n.term then n
    else if !resp.success then BackOff(n, peer)
    else if resp.matchIndex > LastIndex(n.disk.log) then n
    else MaybeAutoFinalize(env, AdvanceCommit(env, RecordProgress(n, peer, resp.matchIndex)))
  }

  function HandleChunkReply<S>(
    env: Env<S>, n: Node<S>, peer: Id, resp: ChunkReply, sentNext: nat, sentDone: bool): Node<S>
  {
    if !AcceptsReply(n, peer, resp.peer) then n
    else if resp.term > n.term then StepDown(n, resp.term)
    else if n.role != Leader || resp.term != n.term then n
    else if !resp.success then n.(offsets := n.offsets[peer := resp.nextOffset])
    else if resp.lastIndex > LastIndex(n.disk.log) then n
    else if sentDone && resp.done then
      AdvanceCommit(env, RecordProgress(n, peer, resp.lastIndex).(offsets := n.offsets[peer := 0]))
    else n.(offsets := n.offsets[peer := sentNext])
  }

  /** What one heartbeat sends to one peer: a snapshot chunk, or every entry it may lack. */
  function Heartbeat<S>(env: Env<S>, n: Node<S>, peer: Id): Outbound {
    var l := n.disk.log;
    var ni := Next(n, peer);
    if l.base > 0 && ni <= l.base then
      var offset := if peer in n.offsets then n.offsets[peer] else 0;
      var end := Min(offset + env.chunkBytes, |l.image|);
      if offset <= end then
        SendChunk(Chunk(n.term, n.me, l.base, l.baseTerm, offset, l.image[offset..end], end == |l.image|))
      else SendNothing
    else
      var prev := Max(ni - 1, 0);
      SendAppend(AppendRequest(n.term, n.me, prev, TermAt(l, prev), n.commit, EntriesFrom(l, ni)))
  }

  /** What counts towards the command limit; a Finalize carries nothing and always fits. */
  function SizeOf<S>(env: Env<S>, command: Command): nat {
    match command
    case App(data) => |data|
    case Joint(_) => env.encodedBytes(command)
    case Join(_) => env.encodedBytes(command)
    case _ => 0
  }

  function SubmitCommand<S>(env: Env<S>, n: Node<S>, command: Command): (Node<S>, Result<nat>) {
    if n.role != Leader then (n, Err(NotLeader))
    else if SizeOf(env, command) > MAX_COMMAND_BYTES then (n, Err(TooLarge))
    else
      var m := AppendOwn(n, command);
      (AdvanceCommit(env, m), Ok(LastIndex(m.disk.log)))
  }

  predicate ChangeUnderway<S>(n: Node<S>) {
    exists k: nat :: n.commit < k <= LastIndex(n.disk.log) && MembershipAt(n.disk.log, k)
  }

  predicate MembershipAt(l: Log, index: nat) {
    EntryAt(l, index).Some? && EntryAt(l, index).value.command.IsMembership()
  }

  function SubmitJoint<S>(env: Env<S>, n: Node<S>, members: Proposal): (Node<S>, Result<nat>) {
    if IsJoint(n.config) || n.finalizePending || ChangeUnderway(n) then (n, Err(ConfigInProgress))
    else
      var r := SubmitCommand(env, n, Joint(members));
      if r.1.Err? then r else (MaybeAutoFinalize(env, r.0), r.1)
  }

  /** The first retained Join of a peer with this id. */
  function JoinIndex(l: Log, id: Id, from: nat): Option<nat>
    decreases LastIndex(l) + 1 - from
  {
    if from > LastIndex(l) then None
    else
      var e := EntryAt(l, from);
      if e.Some? && e.value.command.Join? && e.value.command.peer.id == id then Some(from)
      else JoinIndex(l, id, from + 1)
  }

  function SubmitJoin<S>(env: Env<S>, n: Node<S>, peer: Peer): (Node<S>, Result<nat>) {
    if Contains(n.config, peer.id) then (n, Ok(n.commit))
    else if peer.id in n.joiners then (n, Ok(n.joiners[peer.id].1))
    else
      var k := JoinIndex(n.disk.log, peer.id, n.disk.log.base + 1);
      if k.Some? then (n, Ok(k.value)) else SubmitCommand(env, n, Join(peer))
  }

  /** The joiners that hold everything up to their committed Join. */
  function CaughtUp<S>(n: Node<S>): Members {
    map id | id in n.joiners && Matched(n, id) >= n.joiners[id].1 :: n.joiners[id].0
  }

  /** The members, in order of id, and then the joiners that are not among them. */
  function Promotion<S>(n: Node<S>): seq<Peer> {
    var ready := CaughtUp(n);
    Listing(n.config.current)
      + Listing(map id | id in ready && !Contains(n.config, ready[id].id) :: ready[id])
  }

  function PromoteJoiners<S>(env: Env<S>, n: Node<S>): Node<S> {
    if n.role != Leader || n.joiners == map[] || IsJoint(n.config) || n.finalizePending then n
    else if CaughtUp(n) == map[] || Promotion(n) == [] then n
    else SubmitJoint(env, n, Promotion(n)).0
  }

  // ---------------------------------------------------------------- reads

  function BeginRead<S>(env: Env<S>, n: Node<S>, query: Bytes, token: nat): (Node<S>, Result<PendingRead>) {
    if n.role != Leader || n.joiningFrom != None || n.decommissioned || !IsVoter(n.config, n.me) then
      (n, Err(NotLeader))
    else if |query| > MAX_COMMAND_BYTES then (n, Err(TooLarge))
    else
      var domain := if n.readDomain == None then token else n.readDomain.value;
      var m := n.(readDomain := Some(domain));
      (AdvanceCommit(env, AppendOwn(m, Noop)),
       Ok(PendingRead(domain, n.term, LastIndex(n.disk.log) + 1, n.epoch, query)))
  }

  function ReadReady<S>(n: Node<S>, read: PendingRead): Result<bool> {
    if n.role != Leader || n.term != read.term || n.joiningFrom != None || n.decommissioned then Err(NotLeader)
    else if n.epoch != read.epoch || n.readDomain != Some(read.domain) then Err(ReadBarrier)
    else Ok(n.commit >= read.index && n.applied == n.commit && TermAt(n.disk.log, n.commit) == read.term)
  }

  function HandleQuery<S>(env: Env<S>, n: Node<S>, read: PendingRead): Result<Bytes> {
    match ReadReady(n, read)
    case Err(e) => Err(e)
    case Ok(ready) => if ready then Ok(env.app.query(n.machine, read.query)) else Err(ReadBarrier)
  }

  // ---------------------------------------------------------------- joining and restarting

  function BeginJoining<S>(env: Env<S>, n: Node<S>, anchor: Id): Node<S> {
    var a := Persist(n, n.disk.(admission := Some(Admission(anchor, n.disk.log.base))));
    var b := PersistLog(a.(readDomain := None), EMPTY)
             .(machine := env.app.initial, commit := 0, applied := 0, epoch := 0,
               next := map[], matched := map[], offsets := map[], joiners := map[],
               finalizing := [], fence := 0, finalizePending := false, pending := None, vote := None);
    Persist(b, b.disk.(vote := None))
      .(role := Follower, joiningFrom := Some(anchor), knownLeader := Some(anchor), votes := {})
  }

  /** The admission fence that a restart finds still standing. */
  function StandingFence(disk: Disk, me: Id, config: Config, named: bool): Option<Id> {
    if disk.admission == None then None
    else if named && disk.log.base > disk.admission.value.snapshotIndex && Contains(config, me) then None
    else Some(disk.admission.value.anchor)
  }

  /** A follower that has applied its snapshot and nothing else. */
  function Fresh<S>(me: Id, c: Config, epoch: nat, fence: Option<Id>, state: S, d: Disk): Node<S> {
    Node(me, Follower, d.term, d.vote, d.log.base, d.log.base, map[], map[], map[], c, c, epoch, false, fence, map[],
         IdsOf(Listing(c.next)), if IsJoint(c) then d.log.base else 0, false, fence, None, {}, None, state, d, [d])
  }

  /** A node built from what its predecessor left on disk; fails if the snapshot cannot be restored. */
  function Boot<S>(env: Env<S>, me: Id, initial: Config, disk: Disk): Option<Node<S>> {
    var base := disk.log.base;
    var e := if base > 0 then SnapshotCodec.Decode(disk.log.image) else None;
    var named := e != None && e.value.current != [];
    var c := if named then EnvelopeConfig(e.value) else initial;
    var restored :=
      if base == 0 then Some(env.app.initial)
      else env.app.restore(if e == None then disk.log.image else e.value.state);
    if restored == None then None
    else
      var fence := StandingFence(disk, me, c, named);
      var d := if disk.admission != None && fence == None then disk.(admission := None) else disk;
      var epoch := if !named then 0 else if e.value.epoch == 0 then base else e.value.epoch;
      var n := Fresh(me, c, epoch, fence, restored.value, d);
      Some(n.(decommissioned := !Contains(Effective(n), me)))
  }
}
