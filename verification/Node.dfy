/**
 * One Raft node as a value, and what each entry point of `node.rs` makes of it.
 *
 * Timers and contact times are left out; a durable write appends to `trail`.
 */
module Node {
  import opened Basics
  import opened RaftTypes
  import opened Membership
  import opened LogStore
  import SnapshotCodec

  const MAX_COMMAND_BYTES := 3000
  const MAX_SNAPSHOT_BYTES := 64 * 1024 * 1024

  // ---------------------------------------------------------------- state

  /** A deterministic application. */
  datatype Machine<!S> = Machine(
    initial: S,
    apply: (S, nat, Bytes) -> S,
    snapshot: S -> Bytes,
    restore: Bytes -> Option<S>,
    query: (S, Bytes) -> Bytes)

  /** What a node is set up with; `encodedBytes` is the length of an encoded Joint or Join. */
  datatype Env<!S> = Env(app: Machine<S>, minEntries: nat, chunkBytes: nat, encodedBytes: Command -> nat)

  datatype Admission = Admission(anchor: Id, snapshotIndex: nat)

  /** Everything that survives a restart. */
  datatype Disk = Disk(term: nat, vote: Option<Id>, admission: Option<Admission>, log: Log)

  datatype Pending = Pending(leader: Id, term: nat, lastIndex: nat, lastTerm: nat, offset: nat, data: Bytes)

  datatype Node<S> = Node(
    me: Id,
    role: Role,
    term: nat,
    vote: Option<Id>,
    commit: nat,
    applied: nat,
    next: map<Id, nat>,
    matched: map<Id, nat>,
    offsets: map<Id, nat>,
    config: Config,
    snapConfig: Config,
    epoch: nat,
    decommissioned: bool,
    joiningFrom: Option<Id>,
    joiners: map<Id, (Peer, nat)>,
    finalizing: seq<Id>,
    fence: nat,
    finalizePending: bool,
    knownLeader: Option<Id>,
    pending: Option<Pending>,
    votes: set<Id>,
    readDomain: Option<nat>,
    machine: S,
    disk: Disk,
    trail: seq<Disk>)

  // ---------------------------------------------------------------- messages

  datatype VoteRequest = VoteRequest(term: nat, candidate: Id, lastIndex: nat, lastTerm: nat)
  datatype VoteReply = VoteReply(peer: Id, term: nat, granted: bool)
  datatype AppendRequest = AppendRequest(
    term: nat, leader: Id, prevIndex: nat, prevTerm: nat, commit: nat, entries: seq<Entry>)
  datatype AppendReply = AppendReply(peer: Id, term: nat, success: bool, matchIndex: nat)
  datatype Chunk = Chunk(
    term: nat, leader: Id, lastIndex: nat, lastTerm: nat, offset: nat, data: Bytes, done: bool)
  datatype ChunkReply = ChunkReply(
    peer: Id, term: nat, success: bool, lastIndex: nat, nextOffset: nat, done: bool)

  datatype Outbound =
    | SendNothing
    | SendAppend(append: AppendRequest)
    | SendChunk(chunk: Chunk)

  datatype Error = NotLeader | TooLarge | ReadBarrier | ConfigInProgress

  datatype Result<+T> = Ok(value: T) | Err(error: Error)

  /** One query admitted before its log fence. */
  datatype PendingRead = PendingRead(domain: nat, term: nat, index: nat, epoch: nat, query: Bytes)

  // ---------------------------------------------------------------- configuration in the log

  function ConfigAfter(c: Config, e: Entry): Config {
    match e.command
    case Joint(members) => TransitionTo(c, members)
    case Finalize => FinalizeTransition(c)
    case _ => c
  }

  function FoldConfig(c: Config, es: seq<Entry>): Config {
    if es == [] then c else ConfigAfter(FoldConfig(c, es[..|es| - 1]), es[|es| - 1])
  }

  /** Snapshot configuration, then every retained entry up to `index`. */
  function ConfigurationAt<S>(n: Node<S>, index: nat): Config {
    var l := n.disk.log;
    FoldConfig(n.snapConfig, l.entries[..Clamp(index - l.base, |l.entries|)])
  }

  function Effective<S>(n: Node<S>): Config {
    ConfigurationAt(n, LastIndex(n.disk.log))
  }

  /** The configuration a snapshot envelope names. */
  function EnvelopeConfig(e: SnapshotCodec.Envelope): Config
    requires e.current != []
  {
    var c := Stable(FromPeers(e.current));
    if e.next == [] then c else TransitionTo(c, e.next)
  }

  /** Envelope of the applied state, as compaction and admission write it. */
  function Seal<S>(env: Env<S>, n: Node<S>, epoch: nat): Bytes {
    SnapshotCodec.Wrap(Listing(n.config.current), Listing(n.config.next), epoch, env.app.snapshot(n.machine))
  }

  // ---------------------------------------------------------------- durable writes

  function Persist<S>(n: Node<S>, d: Disk): Node<S> {
    n.(disk := d, trail := n.trail + [d])
  }

  function PersistLog<S>(n: Node<S>, l: Log): Node<S> {
    Persist(n, n.disk.(log := l))
  }

  function AppendOwn<S>(n: Node<S>, command: Command): Node<S> {
    PersistLog(n, AppendAll(n.disk.log, [Entry(n.term, n.me, command)]))
  }

  /** The later term is durable before the vote of the earlier one is erased. */
  function StepDown<S>(n: Node<S>, term: nat): Node<S> {
    var m := Persist(n.(pending := None, term := term), n.disk.(term := term));
    Persist(m.(role := Follower, vote := None, votes := {}, knownLeader := None), m.disk.(vote := None))
  }

  // ---------------------------------------------------------------- committing and applying

  /** Everyone known to hold `index`: the node itself and the configuration's matched members. */
  function Replicated<S>(n: Node<S>, c: Config, index: nat): set<Id> {
    {n.me} + set p | p in AllMembers(c) && p != n.me && Matched(n, p) >= index
  }

  function Matched<S>(n: Node<S>, p: Id): nat {
    if p in n.matched then n.matched[p] else 0
  }

  predicate IsFinalizeAt(l: Log, index: nat) {
    EntryAt(l, index).Some? && EntryAt(l, index).value.command == Finalize
  }

  /** Every uncommitted Finalize up to `index` also has the quorum of the configuration before it. */
  predicate FinalizesCarried<S>(n: Node<S>, index: nat) {
    var who := Replicated(n, ConfigurationAt(n, index), index);
    forall k: nat :: n.commit < k <= index && IsFinalizeAt(n.disk.log, k) ==>
      HasJointMajority(ConfigurationAt(n, k - 1), who)
  }

  predicate Commits<S>(n: Node<S>, index: nat) {
    && TermAt(n.disk.log, index) == n.term
    && HasJointMajority(ConfigurationAt(n, index), Replicated(n, ConfigurationAt(n, index), index))
    && FinalizesCarried(n, index)
  }

  /** The last index in `(commit, hi]` that commits, or the commit index itself. */
  function CommitScan<S>(n: Node<S>, hi: nat): nat
    decreases hi
  {
    if hi <= n.commit then n.commit
    else if Commits(n, hi) then hi
    else CommitScan(n, hi - 1)
  }

  function JointsIn(es: seq<Entry>): nat {
    if es == [] then 0 else (if es[0].command.Joint? then 1 else 0) + JointsIn(es[1..])
  }

  /** Joint entries of a log after position `applied`. */
  function JointsAfter(l: Log, applied: nat): nat {
    JointsIn(l.entries[Clamp(applied - l.base, |l.entries|)..])
  }

  function Clamp(x: int, hi: nat): (r: nat)
    ensures r <= hi
  {
    if x < 0 then 0 else if x < hi then x else hi
  }

  function Lag<S>(n: Node<S>): nat {
    if n.applied < n.commit then n.commit - n.applied else 0
  }

  lemma {:induction false} JointsInDrop(es: seq<Entry>, k: nat)
    requires k <= |es|
    ensures JointsIn(es[k..]) <= JointsIn(es)
  {
    if k > 0 {
      JointsInDrop(es[1..], k - 1);
      assert es[1..][k - 1..] == es[k..];
    } else {
      assert es[0..] == es;
    }
  }

  lemma {:induction false} JointsInAppend(es: seq<Entry>, e: Entry)
    ensures JointsIn(es + [e]) == JointsIn(es) + (if e.command.Joint? then 1 else 0)
  {
    if es == [] {
      assert [e][1..] == [];
      assert es + [e] == [e];
    } else {
      assert (es + [e])[1..] == es[1..] + [e];
      JointsInAppend(es[1..], e);
    }
  }

  lemma JointsAfterAppend(l: Log, applied: nat, e: Entry)
    ensures JointsAfter(AppendAll(l, [e]), applied) <= JointsAfter(l, applied) + (if e.command.Joint? then 1 else 0)
  {
    var es := l.entries;
    var k := Clamp(applied - l.base, |es|);
    JointsInAppend(es[k..], e);
    assert es[k..] + [e] == (es + [e])[k..];
    var k' := Clamp(applied - l.base, |es| + 1);
    JointsInDrop((es + [e])[k..], k' - k);
    assert (es + [e])[k..][k' - k..] == (es + [e])[k'..];
  }

  lemma JointsAfterNext(l: Log, applied: nat)
    ensures JointsAfter(l, applied + 1) <= JointsAfter(l, applied)
    ensures EntryAt(l, applied + 1).Some? && EntryAt(l, applied + 1).value.command.Joint? ==>
              JointsAfter(l, applied + 1) < JointsAfter(l, applied)
  {
    var k := Clamp(applied - l.base, |l.entries|);
    var k' := Clamp(applied + 1 - l.base, |l.entries|);
    JointsInDrop(l.entries[k..], k' - k);
    assert l.entries[k..][k' - k..] == l.entries[k'..];
  }

  /** Installing a snapshot of what is already applied hides no unapplied entry. */
  lemma JointsAfterInstall(l: Log, applied: nat, index: nat, term: nat, image: Bytes)
    requires index <= applied
    ensures JointsAfter(InstallSnapshot(l, index, term, image), applied) <= JointsAfter(l, applied)
  {
    var es := Retained(l, index, term);
    if es != [] {
      var d := index - l.base;
      assert es == l.entries[d..];
      var k, k' := Clamp(applied - l.base, |l.entries|), Clamp(applied - index, |es|);
      assert k == d + k';
      assert es[k'..] == l.entries[k..];
    }
  }

  /** The joiners that a proposal does not take in. */
  function StillJoining(joiners: map<Id, (Peer, nat)>, members: seq<Peer>): map<Id, (Peer, nat)> {
    map id | id in joiners && (forall p :: p in members ==> p.id != id) :: joiners[id]
  }

  function EnterJoint<S>(n: Node<S>, members: Proposal): Node<S> {
    var c := TransitionTo(n.config, members);
    n.(joiners := StillJoining(n.joiners, members), finalizing := IdsOf(members), fence := n.applied,
       finalizePending := false, config := c, epoch := n.applied, decommissioned := !Contains(c, n.me))
  }

  function FinishJoint<S>(n: Node<S>): Node<S> {
    var c := FinalizeTransition(n.config);
    n.(finalizing := [], fence := 0, finalizePending := false, config := c, epoch := n.applied,
       decommissioned := !Contains(c, n.me))
  }

  /** A committed Joint or Finalize becomes the applied configuration. */
  function AdoptConfig<S>(n: Node<S>, command: Command): Node<S>
    requires command.IsMembership()
  {
    match command
    case Joint(members) => EnterJoint(n, members)
    case Finalize => FinishJoint(n)
  }

  /** Admission ends: the membership is durable before the fence is lifted. */
  function Admit<S>(env: Env<S>, n: Node<S>): (r: Node<S>)
    ensures r == n.(disk := r.disk, trail := r.trail, snapConfig := r.snapConfig, joiningFrom := r.joiningFrom)
    ensures r.disk == n.disk.(log := r.disk.log, admission := r.disk.admission)
  {
    hide InstallSnapshot, Seal, Contains;
    if !Contains(n.config, n.me) then n
    else if n.joiningFrom == None then n
    else
      var l := InstallSnapshot(n.disk.log, n.applied, TermAt(n.disk.log, n.applied), Seal(env, n, n.applied));
      var m := PersistLog(n, l).(snapConfig := n.config);
      Persist(m, m.disk.(admission := None)).(joiningFrom := None)
  }

  function Resign<S>(n: Node<S>): Node<S> {
    if IsVoter(n.config, n.me) then n else n.(role := Follower, knownLeader := None, votes := {})
  }

  function Among(m: map<Id, nat>, ids: set<Id>): map<Id, nat> {
    map id | id in m && id in ids :: m[id]
  }

  function ForgetStrangers<S>(n: Node<S>): Node<S> {
    var active := AllMembers(n.config);
    n.(next := Among(n.next, active), matched := Among(n.matched, active), offsets := Among(n.offsets, active))
  }

  function Reconfigure<S>(env: Env<S>, n: Node<S>, command: Command): Node<S>
    requires command.IsMembership()
  {
    ForgetStrangers(Resign(Admit(env, AdoptConfig(n, command))))
  }

  function Joints<S>(n: Node<S>): nat {
    JointsAfter(n.disk.log, n.applied)
  }

  lemma ReconfigureShrinks<S>(env: Env<S>, n: Node<S>, command: Command)
    requires command.IsMembership()
    ensures Joints(Reconfigure(env, n, command)) <= Joints(n)
    ensures Reconfigure(env, n, command).applied == n.applied && Reconfigure(env, n, command).commit == n.commit
  {
    hide JointsAfter, Seal, InstallSnapshot, TransitionTo, Contains;
    var m := AdoptConfig(n, command);
    JointsAfterInstall(m.disk.log, m.applied, m.applied, TermAt(m.disk.log, m.applied), Seal(env, m, m.applied));
  }

  /** Entries that do not change the membership. */
  function ApplyPlain<S>(env: Env<S>, n: Node<S>, e: Entry): (r: Node<S>)
    ensures r == n.(machine := r.machine, joiners := r.joiners)
    ensures r.disk == n.disk && r.applied == n.applied && r.commit == n.commit
  {
    match e.command
    case App(data) => n.(machine := env.app.apply(n.machine, e.term, data))
    case Join(peer) => n.(joiners := n.joiners[peer.id := (peer, n.applied)])
    case _ => n
  }

  function MaybeCompact<S>(env: Env<S>, n: Node<S>): Node<S> {
    if env.minEntries == 0 || n.commit == 0 || n.joiners != map[] then n
    else if n.commit <= n.disk.log.base || n.commit - n.disk.log.base < env.minEntries then n
    else
      PersistLog(n, InstallSnapshot(n.disk.log, n.commit, TermAt(n.disk.log, n.commit), Seal(env, n, n.epoch)))
        .(snapConfig := n.config)
  }

  lemma CompactShrinks<S>(env: Env<S>, n: Node<S>)
    requires n.commit <= n.applied
    ensures Joints(MaybeCompact(env, n)) <= Joints(n)
    ensures MaybeCompact(env, n).applied == n.applied && MaybeCompact(env, n).commit == n.commit
  {
    hide JointsAfter, Seal, InstallSnapshot;
    JointsAfterInstall(n.disk.log, n.applied, n.commit, TermAt(n.disk.log, n.commit), Seal(env, n, n.epoch));
  }

  // A committed Joint can append a Finalize and commit it at once, which applies more entries
  // before the first application has returned. Each such nesting has one Joint fewer to apply.

  /** One turn of the apply loop. */
  function ApplyNext<S>(env: Env<S>, n: Node<S>): (r: Node<S>)
    requires n.applied < n.commit
    ensures Joints(r) < Joints(n) || (Joints(r) == Joints(n) && Lag(r) < Lag(n))
    ensures n.commit <= r.commit && r.applied <= r.commit
    decreases Joints(n), 1, 0
  {
    hide Reconfigure, JointsAfter, EntryAt, ApplyPlain;
    var m := n.(applied := n.applied + 1);
    JointsAfterNext(n.disk.log, n.applied);
    var e := EntryAt(n.disk.log, n.applied + 1);
    if e == None then m
    else if !e.value.command.IsMembership() then ApplyPlain(env, m, e.value)
    else
      ReconfigureShrinks(env, m, e.value.command);
      var c := Reconfigure(env, m, e.value.command);
      if e.value.command.Joint? then MaybeAutoFinalize(env, c) else c
  }

  function ApplyLoop<S>(env: Env<S>, n: Node<S>): (r: Node<S>)
    ensures Joints(r) <= Joints(n)
    ensures r.commit <= r.applied && n.commit <= r.commit
    ensures n.applied <= n.commit ==> r.applied == r.commit
    decreases Joints(n), 2, Lag(n)
  {
    if n.commit <= n.applied then n else ApplyLoop(env, ApplyNext(env, n))
  }

  function ApplyCommitted<S>(env: Env<S>, n: Node<S>): (r: Node<S>)
    ensures Joints(r) <= Joints(n)
    ensures r.commit <= r.applied && n.commit <= r.commit
    ensures n.applied <= n.commit ==> r.applied == r.commit
    decreases Joints(n), 3, 0
  {
    var m := ApplyLoop(env, n);
    CompactShrinks(env, m);
    MaybeCompact(env, m)
  }

  function AdvanceCommit<S>(env: Env<S>, n: Node<S>): (r: Node<S>)
    ensures Joints(r) <= Joints(n) && n.commit <= r.commit
    ensures r.commit > n.commit ==> r.commit <= r.applied
    ensures n.applied <= n.commit ==> r.applied <= r.commit
    decreases Joints(n), 4, 0
  {
    var c := CommitScan(n, LastIndex(n.disk.log));
    if c > n.commit then ApplyCommitted(env, n.(commit := c)) else n
  }

  function MaybeAutoFinalize<S>(env: Env<S>, n: Node<S>): (r: Node<S>)
    ensures Joints(r) <= Joints(n) && n.commit <= r.commit
    ensures r.commit > n.commit ==> r.commit <= r.applied
    ensures n.applied <= n.commit ==> r.applied <= r.commit
    decreases Joints(n), 5, 0
  {
    if n.role != Leader || !IsJoint(n.config) || n.finalizePending || n.finalizing == [] then n
    else if n.fence == 0 || n.commit < n.fence
         || exists id :: id in n.finalizing && id != n.me && Matched(n, id) < n.fence then n
    else
      JointsAfterAppend(n.disk.log, n.applied, Entry(n.term, n.me, Finalize));
      AdvanceCommit(env, AppendOwn(n, Finalize)).(finalizePending := true)
  }

  lemma AppendOwnJoints<S>(n: Node<S>)
    ensures Joints(AppendOwn(n, Finalize)) <= Joints(n)
  {
    hide JointsAfter;
    JointsAfterAppend(n.disk.log, n.applied, Entry(n.term, n.me, Finalize));
  }
}
