/**
 * The durable fence around a node that joins a cluster.
 *
 * A disk history is every durable write of one node, across restarts. Once an admission record is
 * written, nothing opens the fence before a membership snapshot naming the node has been written.
 */
module JoinFence {
  import opened Basics
  import opened RaftTypes
  import opened Membership
  import opened LogStore
  import opened Node
  import opened Handlers
  import opened Coherence
  import opened FollowerSimulation
  import Compaction
  import opened NodeRuns
  import EnvelopeRoundTrip
  import SnapshotCodec

  // ---------------------------------------------------------------- disk histories

  /** The stored snapshot is a membership snapshot that names `me`. */
  ghost predicate Names(l: Log, me: Id) {
    l.base > 0 && ImageNames(l.image, me)
  }

  ghost predicate ImageNames(image: Bytes, me: Id) {
    var e := SnapshotCodec.Decode(image);
    e.Some? && e.value.current != [] && Contains(EnvelopeConfig(e.value), me)
  }

  ghost predicate NewSnapshot(d: Disk, d': Disk) {
    d'.log.base != d.log.base || d'.log.image != d.log.image
  }

  /** A write that replaces the snapshot by one naming `me`. */
  ghost predicate Admits(me: Id, d: Disk, d': Disk) {
    NewSnapshot(d, d') && Names(d'.log, me) && d'.admission == d.admission
  }

  /** A node started from this disk is not fenced. */
  ghost predicate Open(me: Id, d: Disk) {
    d.admission == None || (Names(d.log, me) && d.log.base > d.admission.value.snapshotIndex)
  }

  /** The write `k` of a history, seen from its predecessors. */
  ghost predicate Proper(me: Id, ds: seq<Disk>, k: nat)
    requires 0 < k < |ds|
  {
    var d, d' := ds[k - 1], ds[k];
    && (d'.admission.Some? && d'.admission != d.admission ==> d'.admission.value.snapshotIndex == d'.log.base)
    && (d'.admission == None && d.admission.Some? ==> Open(me, d) || (k >= 2 && Admits(me, ds[k - 2], d)))
  }

  /** Snapshots name only members that an envelope carries without loss. */
  ghost predicate SafeImage(image: Bytes) {
    var e := SnapshotCodec.Decode(image);
    e.Some? && e.value.current != [] ==> SafeConfig(EnvelopeConfig(e.value))
  }

  /** What may be left on a disk: safe entries and a safe snapshot. */
  ghost predicate SafeDisk(d: Disk) {
    SafeLog(d.log.entries) && (d.log.base > 0 ==> SafeImage(d.log.image))
  }

  ghost predicate Chain(me: Id, ds: seq<Disk>) {
    && (forall k :: 0 < k < |ds| ==> Proper(me, ds, k))
    && (forall k :: 0 <= k < |ds| ==> SafeDisk(ds[k]))
  }

  /** The write `r` is a new admission record. */
  ghost predicate Records(ds: seq<Disk>, r: nat) {
    0 < r < |ds| && ds[r].admission.Some? && ds[r].admission != ds[r - 1].admission
  }

  ghost predicate AdmittedBetween(me: Id, ds: seq<Disk>, r: nat, k: nat) {
    exists m :: r < m <= k < |ds| && Admits(me, ds[m - 1], ds[m])
  }

  /** A write that opens the fence either brings a snapshot naming the node or follows one. */
  lemma OpeningWrite(me: Id, ds: seq<Disk>, k: nat)
    requires 0 < k < |ds| && Proper(me, ds, k) && !Open(me, ds[k - 1]) && Open(me, ds[k])
    ensures Admits(me, ds[k - 1], ds[k]) || (k >= 2 && Admits(me, ds[k - 2], ds[k - 1]))
  {
    hide ImageNames;
  }

  lemma RecordIsShut(me: Id, ds: seq<Disk>, r: nat)
    requires Records(ds, r) && Proper(me, ds, r)
    ensures !Open(me, ds[r]) && (r >= 1 ==> !Admits(me, ds[r - 1], ds[r]))
  {
    hide ImageNames;
  }

  /** Between a record and the first disk that opens the fence, a snapshot naming the node was written. */
  lemma {:induction false} FenceHolds(me: Id, ds: seq<Disk>, r: nat, k: nat)
    requires Chain(me, ds) && Records(ds, r) && r <= k < |ds| && Open(me, ds[k])
    ensures AdmittedBetween(me, ds, r, k)
    decreases k
  {
    hide Open, Admits, Proper, SafeDisk;
    assert Proper(me, ds, k);
    assert Proper(me, ds, r);
    RecordIsShut(me, ds, r);
    if Open(me, ds[k - 1]) {
      FenceHolds(me, ds, r, k - 1);
      var m :| r < m <= k - 1 && Admits(me, ds[m - 1], ds[m]);
    } else {
      OpeningWrite(me, ds, k);
    }
  }

  lemma ChainPrefix(me: Id, ds: seq<Disk>, k: nat)
    requires Chain(me, ds) && k <= |ds|
    ensures Chain(me, ds[..k])
  {
    hide Open, Admits, SafeDisk;
    var xs := ds[..k];
    forall i | 0 < i < |xs| ensures Proper(me, xs, i) {
      assert Proper(me, ds, i);
    }
  }

  lemma ChainGrows(me: Id, ds: seq<Disk>, d: Disk)
    requires Chain(me, ds) && ds != [] && Proper(me, ds + [d], |ds|) && SafeDisk(d)
    ensures Chain(me, ds + [d])
  {
    hide Open, Admits, SafeDisk;
    var xs := ds + [d];
    forall i | 0 < i < |xs| ensures Proper(me, xs, i) {
      if i < |ds| {
        assert Proper(me, ds, i);
      }
    }
  }

  // ---------------------------------------------------------------- guarded nodes

  ghost predicate FenceMatches<S>(n: Node<S>) {
    n.joiningFrom == if n.disk.admission == None then None else Some(n.disk.admission.value.anchor)
  }

  ghost predicate Guarded<S>(n: Node<S>) {
    && n.trail != [] && n.trail[|n.trail| - 1] == n.disk
    && FenceMatches(n)
    && SafeConfig(n.config) && SafeDisk(n.disk)
    && n.disk.log.base <= n.applied <= n.commit
    && Chain(n.me, n.trail)
  }

  /** Of the snapshot in `d'`: it seals what the membership entry of `d` at that index made of `c`. */
  ghost predicate Seals<S>(env: Env<S>, me: Id, d: Disk, d': Disk, c: Config, e: Entry, s: S) {
    && EntryAt(d.log, d'.log.base) == Some(e) && e.command.IsMembership()
    && Contains(ConfigAfter(c, e), me) && d'.log.image == Envelope(env.app, ConfigAfter(c, e), s, d'.log.base)
  }

  /** The write seals a configuration that contains `me` and was adopted at exactly this index. */
  ghost predicate SealsAdmission<S(!new)>(env: Env<S>, me: Id, d: Disk, d': Disk) {
    d.admission.Some? && exists c: Config, e: Entry, s: S :: Seals(env, me, d, d', c, e, s)
  }

  /** Since `trail`, snapshots were written by admissions only. */
  ghost predicate OnlyAdmissions<S(!new)>(env: Env<S>, me: Id, trail: seq<Disk>, trail': seq<Disk>) {
    forall k :: 0 < |trail| <= k < |trail'| && NewSnapshot(trail'[k - 1], trail'[k]) ==>
      SealsAdmission(env, me, trail'[k - 1], trail'[k])
  }

  ghost predicate Lasts<S>(n: Node<S>, r: Node<S>) {
    Guarded(r) && r.me == n.me && n.trail <= r.trail
  }

  /** What every step of a node does that neither receives a snapshot nor starts to join. */
  ghost predicate Keeps<S(!new)>(env: Env<S>, n: Node<S>, r: Node<S>) {
    && Lasts(n, r)
    && (env.minEntries == 0 ==> OnlyAdmissions(env, n.me, n.trail, r.trail))
  }

  lemma KeepsTrans<S(!new)>(env: Env<S>, n: Node<S>, m: Node<S>, r: Node<S>)
    requires Guarded(n) && Keeps(env, n, m) && Keeps(env, m, r)
    ensures Keeps(env, n, r)
  {
    hide SealsAdmission, NewSnapshot, Chain, SafeConfig, SafeLog, SafeImage, FenceMatches;
    if env.minEntries == 0 {
      forall k | 0 < |n.trail| <= k < |r.trail| && NewSnapshot(r.trail[k - 1], r.trail[k])
        ensures SealsAdmission(env, n.me, r.trail[k - 1], r.trail[k])
      {
        if k < |m.trail| {
          assert r.trail[k] == m.trail[k] && r.trail[k - 1] == m.trail[k - 1];
        }
      }
    }
  }

  /** A step that leaves the disk and the safety-relevant fields alone. */
  ghost predicate SameGuard<S>(n: Node<S>, r: Node<S>) {
    && r.me == n.me && r.disk == n.disk && r.trail == n.trail && r.joiningFrom == n.joiningFrom
    && r.config == n.config && n.applied <= r.applied <= r.commit
  }

  lemma SameGuardKeeps<S(!new)>(env: Env<S>, n: Node<S>, r: Node<S>)
    requires Guarded(n) && SameGuard(n, r)
    ensures Keeps(env, n, r)
  {
    hide Chain, SafeConfig, SafeLog, SafeImage, SealsAdmission, NewSnapshot;
  }

  /** A write that changes neither snapshot nor admission. */
  lemma QuietWrite<S(!new)>(env: Env<S>, n: Node<S>, r: Node<S>, d: Disk)
    requires Guarded(n) && r.disk == d && r.trail == n.trail + [d] && r.me == n.me && r.joiningFrom == n.joiningFrom
    requires r.config == n.config && n.applied <= r.applied <= r.commit
    requires d.admission == n.disk.admission && !NewSnapshot(n.disk, d) && SafeLog(d.log.entries)
    ensures Keeps(env, n, r)
  {
    hide SafeConfig, SafeLog, SafeImage, SealsAdmission, Names;
    assert Proper(n.me, r.trail, |n.trail|);
    ChainGrows(n.me, n.trail, d);
  }

  // ---------------------------------------------------------------- applying

  lemma SealNames<S(!new)>(env: Env<S>, x: Node<S>, epoch: nat)
    requires Lawful(env.app) && SafeConfig(x.config)
    ensures SafeImage(Seal(env, x, epoch))
    ensures Contains(x.config, x.me) ==> ImageNames(Seal(env, x, epoch), x.me)
  {
    hide SnapshotCodec.Decode, SnapshotCodec.Wrap, Listing, Contains, SafeConfig, EnvelopeConfig;
    SealedImageOk(env.app, x.config, x.machine, epoch);
    EnvelopeNames(x.config, SnapshotCodec.Decode(Seal(env, x, epoch)).value);
  }

  lemma SafeRetained(l: Log, index: nat, term: nat)
    requires SafeLog(l.entries)
    ensures SafeLog(Retained(l, index, term))
  {
    hide SafeEntry;
  }

  /** A snapshot naming the node, and then the end of its admission. */
  lemma AdmissionChain(me: Id, ds: seq<Disk>, d1: Disk, d2: Disk)
    requires ds != [] && Chain(me, ds) && Admits(me, ds[|ds| - 1], d1) && d2.admission == None
    requires SafeDisk(d1) && SafeDisk(d2)
    ensures Chain(me, ds + [d1]) && Chain(me, ds + [d1] + [d2])
  {
    hide ImageNames, SafeDisk;
    var t := ds + [d1];
    assert Proper(me, t, |ds|);
    ChainGrows(me, ds, d1);
    assert Proper(me, t + [d2], |t|);
    ChainGrows(me, t, d2);
  }

  lemma AdmitWrites<S>(env: Env<S>, n: Node<S>)
    requires Contains(n.config, n.me) && n.joiningFrom.Some?
    ensures var r := Admit(env, n);
            var l := InstallSnapshot(n.disk.log, n.applied, TermAt(n.disk.log, n.applied), Seal(env, n, n.applied));
            var d := n.disk.(log := l);
            r.trail == n.trail + [d] + [d.(admission := None)] && r.disk == d.(admission := None) && r.joiningFrom == None
  {
    hide InstallSnapshot, Seal, TermAt, Contains;
  }

  /** The two writes that end an admission. */
  lemma AdmitKeeps<S(!new)>(env: Env<S>, n: Node<S>, c: Config, e: Entry)
    requires Lawful(env.app) && Guarded(n) && n.disk.log.base < n.applied && n.epoch == n.applied
    requires EntryAt(n.disk.log, n.applied) == Some(e) && e.command.IsMembership() && n.config == ConfigAfter(c, e)
    ensures Keeps(env, n, Admit(env, n)) && Admit(env, n).applied == n.applied
  {
    hide SafeConfig, SafeLog, SafeImage, ImageNames, Seal, Contains, Retained, Chain, Admit, OnlyAdmissions, ConfigAfter,
      EntryAt;
    if !Contains(n.config, n.me) || n.joiningFrom == None {
      AdmitNothing(env, n);
      SameGuardKeeps(env, n, n);
    } else {
      AdmitWrites(env, n);
      var l := InstallSnapshot(n.disk.log, n.applied, TermAt(n.disk.log, n.applied), Seal(env, n, n.applied));
      var d := n.disk.(log := l);
      SealNames(env, n, n.applied);
      SafeRetained(n.disk.log, n.applied, TermAt(n.disk.log, n.applied));
      AdmissionChain(n.me, n.trail, d, d.(admission := None));
      AdmitOnly(env, n, d, d.(admission := None), c, e);
    }
  }

  lemma AdmitNothing<S>(env: Env<S>, n: Node<S>)
    requires !Contains(n.config, n.me) || n.joiningFrom == None
    ensures Admit(env, n) == n
  {
    hide Contains;
  }

  lemma AdmitOnly<S(!new)>(env: Env<S>, n: Node<S>, d1: Disk, d2: Disk, c: Config, e: Entry)
    requires Guarded(n) && n.disk.admission.Some? && d2 == d1.(admission := None)
    requires Contains(n.config, n.me) && d1.log.image == Seal(env, n, d1.log.base) && d1.log.base == n.applied
    requires EntryAt(n.disk.log, n.applied) == Some(e) && e.command.IsMembership() && n.config == ConfigAfter(c, e)
    ensures OnlyAdmissions(env, n.me, n.trail, n.trail + [d1] + [d2])
  {
    hide Contains, SnapshotCodec.Wrap, Listing, Chain, SafeConfig, SafeLog, SafeImage, FenceMatches, ConfigAfter, EntryAt;
    assert Seals(env, n.me, n.disk, d1, c, e, n.machine);
    assert SealsAdmission(env, n.me, n.disk, d1);
  }

  lemma AdoptGuarded<S(!new)>(env: Env<S>, n: Node<S>, command: Command)
    requires Guarded(n) && command.IsMembership() && (command.Joint? ==> FaithfulAll(command.members))
    ensures var r := AdoptConfig(n, command);
            Keeps(env, n, r) && r.epoch == r.applied == n.applied && r.disk == n.disk
  {
    hide Chain, SafeLog, SafeImage, SealsAdmission, NewSnapshot;
    if command.Joint? {
      FromPeersKeyed(command.members);
    }
  }

  lemma ResignGuarded<S(!new)>(env: Env<S>, n: Node<S>)
    requires Guarded(n)
    ensures Keeps(env, n, Resign(n)) && Resign(n).applied == n.applied
  {
    hide Guarded, Keeps, IsVoter;
    GuardedBounds(n);
    SameGuardKeeps(env, n, Resign(n));
  }

  lemma ForgetGuarded<S(!new)>(env: Env<S>, n: Node<S>)
    requires Guarded(n)
    ensures Keeps(env, n, ForgetStrangers(n)) && ForgetStrangers(n).applied == n.applied
  {
    hide Guarded, Keeps;
    GuardedBounds(n);
    SameGuardKeeps(env, n, ForgetStrangers(n));
  }

  lemma KeepsGuarded<S(!new)>(env: Env<S>, n: Node<S>, r: Node<S>)
    requires Keeps(env, n, r)
    ensures Guarded(r) && r.me == n.me
  {
  }

  lemma ReconfigureKeeps<S(!new)>(env: Env<S>, n: Node<S>, e: Entry)
    requires Lawful(env.app) && Guarded(n) && n.disk.log.base < n.applied && EntryAt(n.disk.log, n.applied) == Some(e)
    requires e.command.IsMembership() && (e.command.Joint? ==> FaithfulAll(e.command.members))
    ensures Keeps(env, n, Reconfigure(env, n, e.command))
  {
    hide Lawful, Guarded, Keeps, AdoptConfig, Admit, Resign, ForgetStrangers, FaithfulAll, ConfigAfter, EntryAt;
    var command := e.command;
    var a := AdoptConfig(n, command);
    AdoptCore(n, e);
    AdoptGuarded(env, n, command);
    KeepsGuarded(env, n, a);
    AdmitKeeps(env, a, n.config, e);
    KeepsTrans(env, n, a, Admit(env, a));
    KeepsGuarded(env, n, Admit(env, a));
    ResignGuarded(env, Admit(env, a));
    KeepsTrans(env, n, Admit(env, a), Resign(Admit(env, a)));
    KeepsGuarded(env, n, Resign(Admit(env, a)));
    ForgetGuarded(env, Resign(Admit(env, a)));
    KeepsTrans(env, n, Resign(Admit(env, a)), Reconfigure(env, n, command));
  }

  lemma CompactKeeps<S(!new)>(env: Env<S>, n: Node<S>)
    requires Lawful(env.app) && Guarded(n) && n.commit == n.applied
    ensures Keeps(env, n, MaybeCompact(env, n))
  {
    hide SafeConfig, SafeLog, SafeImage, ImageNames, Seal, Retained, SealsAdmission, SafeEntry, Contains;
    var r := MaybeCompact(env, n);
    if r == n {
      SameGuardKeeps(env, n, n);
    } else {
      SealNames(env, n, n.epoch);
      SafeRetained(n.disk.log, n.commit, TermAt(n.disk.log, n.commit));
      assert r.trail == n.trail + [r.disk];
      assert Proper(n.me, n.trail + [r.disk], |n.trail|);
      ChainGrows(n.me, n.trail, r.disk);
    }
  }

  lemma PlainKeeps<S(!new)>(env: Env<S>, n: Node<S>, e: Entry)
    requires Guarded(n) && n.applied < n.commit
    ensures var m := n.(applied := n.applied + 1); Keeps(env, n, m) && Keeps(env, n, ApplyPlain(env, m, e))
  {
    hide Guarded, Keeps, ApplyPlain;
    GuardedBounds(n);
    var m := n.(applied := n.applied + 1);
    SameGuardKeeps(env, n, m);
    SameGuardKeeps(env, n, ApplyPlain(env, m, e));
  }

  lemma GuardedBounds<S>(n: Node<S>)
    requires Guarded(n)
    ensures n.disk.log.base <= n.applied <= n.commit && SafeLog(n.disk.log.entries)
  {
    hide SafeConfig, SafeLog, SafeImage, Chain;
  }

  lemma SafeAt(l: Log, index: nat)
    requires SafeLog(l.entries) && EntryAt(l, index).Some? && EntryAt(l, index).value.command.Joint?
    ensures FaithfulAll(EntryAt(l, index).value.command.members)
  {
    assert SafeEntry(l.entries[index - l.base - 1]);
  }

  lemma {:induction false} ApplyNextKeeps<S(!new)>(env: Env<S>, n: Node<S>)
    requires Lawful(env.app) && Guarded(n) && n.applied < n.commit
    ensures Keeps(env, n, ApplyNext(env, n))
    decreases Joints(n), 1, 0
  {
    hide Lawful, Guarded, Keeps, Reconfigure, MaybeAutoFinalize, JointsAfter, ApplyPlain, EntryAt, FaithfulAll, SafeLog;
    GuardedBounds(n);
    var m := n.(applied := n.applied + 1);
    var entry := EntryAt(n.disk.log, n.applied + 1);
    if entry.Some? {
      var e := entry.value;
      PlainKeeps(env, n, e);
      if e.command.IsMembership() {
        if e.command.Joint? {
          SafeAt(n.disk.log, n.applied + 1);
        }
        var c := Reconfigure(env, m, e.command);
        KeepsGuarded(env, n, m);
        ReconfigureKeeps(env, m, e);
        KeepsTrans(env, n, m, c);
        if e.command.Joint? {
          JointsAfterNext(n.disk.log, n.applied);
          ReconfigureShrinks(env, m, e.command);
          KeepsGuarded(env, n, c);
          AutoFinalizeKeeps(env, c);
          KeepsTrans(env, n, c, MaybeAutoFinalize(env, c));
        }
      }
    } else {
      PlainKeeps(env, n, Entry(0, [], Noop));
    }
  }

  lemma {:induction false} ApplyLoopKeeps<S(!new)>(env: Env<S>, n: Node<S>)
    requires Lawful(env.app) && Guarded(n)
    ensures Keeps(env, n, ApplyLoop(env, n))
    decreases Joints(n), 2, Lag(n)
  {
    hide Lawful, Guarded, Keeps, ApplyNext, Joints;
    GuardedBounds(n);
    if n.applied < n.commit {
      ApplyNextKeeps(env, n);
      KeepsGuarded(env, n, ApplyNext(env, n));
      ApplyLoopKeeps(env, ApplyNext(env, n));
      KeepsTrans(env, n, ApplyNext(env, n), ApplyLoop(env, n));
    } else {
      SameGuardKeeps(env, n, n);
    }
  }

  lemma {:induction false} ApplyKeeps<S(!new)>(env: Env<S>, n: Node<S>)
    requires Lawful(env.app) && Guarded(n)
    ensures Keeps(env, n, ApplyCommitted(env, n))
    decreases Joints(n), 3, 0
  {
    hide Lawful, Guarded, Keeps, ApplyLoop, Joints, MaybeCompact;
    GuardedBounds(n);
    ApplyLoopKeeps(env, n);
    KeepsGuarded(env, n, ApplyLoop(env, n));
    CompactKeeps(env, ApplyLoop(env, n));
    KeepsTrans(env, n, ApplyLoop(env, n), ApplyCommitted(env, n));
  }

  lemma {:induction false} AdvanceKeeps<S(!new)>(env: Env<S>, n: Node<S>)
    requires Lawful(env.app) && Guarded(n)
    ensures Keeps(env, n, AdvanceCommit(env, n))
    decreases Joints(n), 4, 0
  {
    hide Lawful, Guarded, Keeps, ApplyCommitted, JointsAfter, CommitScan;
    GuardedBounds(n);
    var c := CommitScan(n, LastIndex(n.disk.log));
    SameGuardKeeps(env, n, n);
    if c > n.commit {
      var m := n.(commit := c);
      SameGuardKeeps(env, n, m);
      KeepsGuarded(env, n, m);
      ApplyKeeps(env, m);
      KeepsTrans(env, n, m, AdvanceCommit(env, n));
    }
  }

  ghost predicate SafeCommand(c: Command) {
    c.Joint? ==> FaithfulAll(c.members)
  }

  lemma AppendOwnKeeps<S(!new)>(env: Env<S>, n: Node<S>, command: Command)
    requires Guarded(n) && SafeCommand(command)
    ensures Keeps(env, n, AppendOwn(n, command))
  {
    hide Guarded, Keeps, EnvelopeRoundTrip.Faithful;
    GuardedBounds(n);
    var e := Entry(n.term, n.me, command);
    assert SafeEntry(e);
    assert SafeLog(n.disk.log.entries + [e]);
    QuietWrite(env, n, AppendOwn(n, command), AppendOwn(n, command).disk);
  }

  lemma {:induction false} AutoFinalizeKeeps<S(!new)>(env: Env<S>, n: Node<S>)
    requires Lawful(env.app) && Guarded(n)
    ensures Keeps(env, n, MaybeAutoFinalize(env, n))
    decreases Joints(n), 5, 0
  {
    hide Lawful, Guarded, Keeps, AdvanceCommit, JointsAfter, IsJoint, AppendOwn;
    SameGuardKeepsSelf(env, n);
    if MaybeAutoFinalize(env, n) != n {
      var m := AppendOwn(n, Finalize);
      AppendOwnKeeps(env, n, Finalize);
      KeepsGuarded(env, n, m);
      AppendOwnJoints(n);
      AdvanceKeeps(env, m);
      KeepsTrans(env, n, m, AdvanceCommit(env, m));
      KeepsGuarded(env, n, AdvanceCommit(env, m));
      FlagKeeps(env, n, AdvanceCommit(env, m));
    }
  }

  lemma SameGuardKeepsSelf<S(!new)>(env: Env<S>, n: Node<S>)
    requires Guarded(n)
    ensures Keeps(env, n, n)
  {
    hide Guarded, Keeps;
    GuardedBounds(n);
    SameGuardKeeps(env, n, n);
  }

  lemma FlagKeeps<S(!new)>(env: Env<S>, n: Node<S>, r: Node<S>)
    requires Guarded(n) && Keeps(env, n, r)
    ensures Keeps(env, n, r.(finalizePending := true))
  {
    hide Guarded, Keeps;
    KeepsGuarded(env, n, r);
    GuardedBounds(r);
    SameGuardKeeps(env, r, r.(finalizePending := true));
    KeepsTrans(env, n, r, r.(finalizePending := true));
  }

  // ---------------------------------------------------------------- elections and leading

  lemma TermWriteKeeps<S(!new)>(env: Env<S>, n: Node<S>, r: Node<S>)
    requires Guarded(n) && r.disk == n.disk.(term := r.disk.term, vote := r.disk.vote)
    requires r.trail == n.trail + [r.disk] && r.me == n.me && r.joiningFrom == n.joiningFrom && r.config == n.config
    requires r.applied == n.applied && r.commit == n.commit
    ensures Keeps(env, n, r)
  {
    hide Guarded, Keeps;
    GuardedBounds(n);
    QuietWrite(env, n, r, r.disk);
  }

  lemma StepDownKeepsGuard<S(!new)>(env: Env<S>, n: Node<S>, t: nat)
    requires Guarded(n)
    ensures Keeps(env, n, StepDown(n, t))
  {
    hide Guarded, Keeps;
    var m := Persist(n.(pending := None, term := t), n.disk.(term := t));
    TermWriteKeeps(env, n, m);
    KeepsGuarded(env, n, m);
    TermWriteKeeps(env, m, StepDown(n, t));
    KeepsTrans(env, n, m, StepDown(n, t));
  }

  lemma CampaignKeeps<S(!new)>(env: Env<S>, n: Node<S>)
    requires Guarded(n)
    ensures Keeps(env, n, Campaign(n))
  {
    hide Guarded, Keeps;
    var m := Persist(n.(role := Candidate, pending := None, term := n.term + 1), n.disk.(term := n.term + 1));
    TermWriteKeeps(env, n, m);
    KeepsGuarded(env, n, m);
    TermWriteKeeps(env, m, Campaign(n));
    KeepsTrans(env, n, m, Campaign(n));
  }

  lemma VoteRequestKeeps<S(!new)>(env: Env<S>, n: Node<S>, req: VoteRequest)
    requires Guarded(n)
    ensures Keeps(env, n, HandleVoteRequest(n, req).0)
  {
    hide Guarded, Keeps, StepDown, Grants;
    var m := if req.term > n.term then StepDown(n, req.term) else n;
    SameGuardKeepsSelf(env, n);
    StepDownKeepsGuard(env, n, req.term);
    KeepsGuarded(env, n, m);
    if Grants(m, req) {
      var r := HandleVoteRequest(n, req).0;
      TermWriteKeeps(env, m, r);
      KeepsTrans(env, n, m, r);
    }
  }

  /** Volatile changes before something that keeps the guard. */
  lemma AfterVolatile<S(!new)>(env: Env<S>, n: Node<S>, m: Node<S>, r: Node<S>)
    requires Guarded(n) && SameGuard(n, m) && Keeps(env, m, r)
    ensures Keeps(env, n, r)
  {
    hide Guarded, Keeps, SameGuard;
    SameGuardKeeps(env, n, m);
    KeepsTrans(env, n, m, r);
  }

  lemma SameGuardGuarded<S(!new)>(env: Env<S>, n: Node<S>, m: Node<S>)
    requires Guarded(n) && SameGuard(n, m)
    ensures Guarded(m)
  {
    hide Guarded, Keeps, SameGuard;
    SameGuardKeeps(env, n, m);
    KeepsGuarded(env, n, m);
  }

  /** A leader's own entry, and what it commits. */
  lemma AppendAdvanceKeeps<S(!new)>(env: Env<S>, n: Node<S>, m: Node<S>, command: Command)
    requires Lawful(env.app) && Guarded(n) && SameGuard(n, m) && SafeCommand(command)
    ensures Keeps(env, n, AdvanceCommit(env, AppendOwn(m, command)))
  {
    hide Lawful, Guarded, Keeps, SameGuard, AppendOwn, AdvanceCommit, SafeCommand;
    SameGuardGuarded(env, n, m);
    var a := AppendOwn(m, command);
    AppendOwnKeeps(env, m, command);
    KeepsGuarded(env, m, a);
    AdvanceKeeps(env, a);
    KeepsTrans(env, m, a, AdvanceCommit(env, a));
    AfterVolatile(env, n, m, AdvanceCommit(env, a));
  }

  lemma LeaderKeeps<S(!new)>(env: Env<S>, n: Node<S>)
    requires Lawful(env.app) && Guarded(n)
    ensures Keeps(env, n, BecomeLeader(env, n))
  {
    hide Lawful, Guarded, Keeps, AppendOwn, AdvanceCommit, Others;
    GuardedBounds(n);
    AppendAdvanceKeeps(env, n, TakeOffice(n), Noop);
  }

  lemma TimeoutKeeps<S(!new)>(env: Env<S>, n: Node<S>)
    requires Lawful(env.app) && Guarded(n)
    ensures Keeps(env, n, StartElection(env, n))
  {
    hide Lawful, Guarded, Keeps, BecomeLeader, Campaign, MayCampaign, HasJointMajority, Effective;
    GuardedBounds(n);
    SameGuardKeeps(env, n, n.(role := Follower));
    CampaignKeeps(env, n);
    var c := Campaign(n);
    KeepsGuarded(env, n, c);
    LeaderKeeps(env, c);
    KeepsTrans(env, n, c, BecomeLeader(env, c));
  }

  lemma VoteReplyKeeps<S(!new)>(env: Env<S>, n: Node<S>, peer: Id, reply: VoteReply)
    requires Lawful(env.app) && Guarded(n)
    ensures Keeps(env, n, HandleVoteReply(env, n, peer, reply))
  {
    hide Lawful, Guarded, Keeps, BecomeLeader, StepDown, HasJointMajority, Effective, IsVoter;
    GuardedBounds(n);
    SameGuardKeepsSelf(env, n);
    StepDownKeepsGuard(env, n, reply.term);
    var m := n.(votes := n.votes + {peer});
    SameGuardKeeps(env, n, m);
    KeepsGuarded(env, n, m);
    LeaderKeeps(env, m);
    KeepsTrans(env, n, m, BecomeLeader(env, m));
  }

  lemma SubmitKeeps<S(!new)>(env: Env<S>, n: Node<S>, command: Command)
    requires Lawful(env.app) && Guarded(n) && SafeCommand(command)
    ensures Keeps(env, n, SubmitCommand(env, n, command).0)
  {
    hide Lawful, Guarded, Keeps, AppendOwn, AdvanceCommit, SafeCommand;
    GuardedBounds(n);
    SameGuardKeepsSelf(env, n);
    AppendAdvanceKeeps(env, n, n, command);
  }

  lemma JointKeeps<S(!new)>(env: Env<S>, n: Node<S>, members: Proposal)
    requires Lawful(env.app) && Guarded(n) && FaithfulAll(members)
    ensures Keeps(env, n, SubmitJoint(env, n, members).0)
  {
    hide Lawful, Guarded, Keeps, SubmitCommand, MaybeAutoFinalize, ChangeUnderway, IsJoint, FaithfulAll;
    SameGuardKeepsSelf(env, n);
    SubmitKeeps(env, n, Joint(members));
    var m := SubmitCommand(env, n, Joint(members)).0;
    KeepsGuarded(env, n, m);
    AutoFinalizeKeeps(env, m);
    KeepsTrans(env, n, m, MaybeAutoFinalize(env, m));
  }

  lemma JoinKeeps<S(!new)>(env: Env<S>, n: Node<S>, peer: Peer)
    requires Lawful(env.app) && Guarded(n)
    ensures Keeps(env, n, SubmitJoin(env, n, peer).0)
  {
    hide Lawful, Guarded, Keeps, SubmitCommand, JoinIndex, Contains;
    SameGuardKeepsSelf(env, n);
    SubmitKeeps(env, n, Join(peer));
  }

  lemma ReadKeeps<S(!new)>(env: Env<S>, n: Node<S>, query: Bytes, token: nat)
    requires Lawful(env.app) && Guarded(n)
    ensures Keeps(env, n, BeginRead(env, n, query, token).0)
  {
    hide Lawful, Guarded, Keeps, AppendOwn, AdvanceCommit, IsVoter;
    GuardedBounds(n);
    SameGuardKeepsSelf(env, n);
    AppendAdvanceKeeps(env, n, n.(readDomain := Some(if n.readDomain == None then token else n.readDomain.value)), Noop);
  }

  lemma AppendReplyKeeps<S(!new)>(env: Env<S>, n: Node<S>, peer: Id, reply: AppendReply)
    requires Lawful(env.app) && Guarded(n)
    ensures Keeps(env, n, HandleAppendReply(env, n, peer, reply))
  {
    hide Lawful, Guarded, Keeps, AdvanceCommit, MaybeAutoFinalize, AcceptsReply, StepDown;
    GuardedBounds(n);
    SameGuardKeepsSelf(env, n);
    StepDownKeepsGuard(env, n, reply.term);
    SameGuardKeeps(env, n, BackOff(n, peer));
    var m := RecordProgress(n, peer, reply.matchIndex);
    SameGuardGuarded(env, n, m);
    AdvanceKeeps(env, m);
    var k := AdvanceCommit(env, m);
    KeepsGuarded(env, m, k);
    AutoFinalizeKeeps(env, k);
    KeepsTrans(env, m, k, MaybeAutoFinalize(env, k));
    AfterVolatile(env, n, m, MaybeAutoFinalize(env, k));
  }

  lemma ChunkReplyKeeps<S(!new)>(env: Env<S>, n: Node<S>, peer: Id, reply: ChunkReply, next: nat, done: bool)
    requires Lawful(env.app) && Guarded(n)
    ensures Keeps(env, n, HandleChunkReply(env, n, peer, reply, next, done))
  {
    hide Lawful, Guarded, Keeps, AdvanceCommit, AcceptsReply, StepDown;
    GuardedBounds(n);
    SameGuardKeepsSelf(env, n);
    StepDownKeepsGuard(env, n, reply.term);
    SameGuardKeeps(env, n, n.(offsets := n.offsets[peer := reply.nextOffset]));
    SameGuardKeeps(env, n, n.(offsets := n.offsets[peer := next]));
    var m := RecordProgress(n, peer, reply.lastIndex).(offsets := n.offsets[peer := 0]);
    SameGuardGuarded(env, n, m);
    AdvanceKeeps(env, m);
    AfterVolatile(env, n, m, AdvanceCommit(env, m));
  }

  // ---------------------------------------------------------------- following

  lemma FollowKeepsGuard<S(!new)>(env: Env<S>, n: Node<S>, t: nat, leader: Id)
    requires Guarded(n)
    ensures Keeps(env, n, Follow(n, t, leader))
  {
    hide Guarded, Keeps, Follow, StepDown;
    GuardedBounds(n);
    if t > n.term {
      FollowsUp(n, t, leader);
      StepDownKeepsGuard(env, n, t);
      var m := StepDown(n, t);
      KeepsGuarded(env, n, m);
      GuardedBounds(m);
      SameGuardKeeps(env, m, m.(knownLeader := Some(leader)));
      KeepsTrans(env, n, m, Follow(n, t, leader));
    } else {
      FollowsOn(n, t, leader);
      SameGuardKeeps(env, n, Follow(n, t, leader));
    }
  }

  lemma LogWriteKeeps<S(!new)>(env: Env<S>, n: Node<S>, l: Log)
    requires Guarded(n) && SafeLog(l.entries) && l.base == n.disk.log.base && l.image == n.disk.log.image
    ensures Keeps(env, n, PersistLog(n, l))
  {
    hide Guarded, Keeps, SafeLog;
    GuardedBounds(n);
    QuietWrite(env, n, PersistLog(n, l), n.disk.(log := l));
  }

  lemma SafeTruncated(l: Log, index: nat)
    requires SafeLog(l.entries)
    ensures SafeLog(TruncateFrom(l, index).entries)
    ensures TruncateFrom(l, index).base == l.base && TruncateFrom(l, index).image == l.image
  {
    hide SafeEntry;
  }

  lemma MergeKeepsGuard<S(!new)>(env: Env<S>, n: Node<S>, prev: nat, es: seq<Entry>)
    requires Guarded(n) && SafeLog(es)
    ensures Keeps(env, n, MergeNode(n, prev, es))
  {
    hide Guarded, Keeps, SafeLog, Merge, ConflictAt, TruncateFrom, PersistLog;
    GuardedBounds(n);
    var l := n.disk.log;
    var cut := ConflictAt(l, prev, es, 0);
    SameGuardKeepsSelf(env, n);
    var m := n;
    if cut.Some? {
      m := PersistLog(n, TruncateFrom(l, cut.value));
      SafeTruncated(l, cut.value);
      LogWriteKeeps(env, n, TruncateFrom(l, cut.value));
      PersistedLog(n, TruncateFrom(l, cut.value));
    }
    KeepsGuarded(env, n, m);
    var merged := Merge(l, prev, es, 0);
    Compaction.MergeIsSafe(l, prev, es, 0);
    MergeKeepsBase(l, prev, es, 0);
    LogWriteKeeps(env, m, merged);
    KeepsTrans(env, n, m, PersistLog(m, merged));
  }

  lemma PersistedLog<S>(n: Node<S>, l: Log)
    ensures PersistLog(n, l).disk.log == l
  {
  }

  lemma ReplicateKeeps<S(!new)>(
    env: Env<S>, n: Node<S>, prev: nat, prevTerm: nat, es: seq<Entry>, commit: nat)
    requires Lawful(env.app) && Guarded(n) && SafeLog(es)
    ensures Keeps(env, n, Replicate(env, n, prev, prevTerm, es, commit).0)
  {
    hide Lawful, Guarded, Keeps, SafeLog, MergeNode, ApplyCommitted;
    SameGuardKeepsSelf(env, n);
    var m := MergeNode(n, prev, es);
    MergeKeepsGuard(env, n, prev, es);
    MergeFields(n, prev, es);
    KeepsGuarded(env, n, m);
    GuardedBounds(m);
    var c := Min(commit, prev + |es|);
    if c > n.commit {
      var k := m.(commit := c);
      SameGuardKeeps(env, m, k);
      KeepsGuarded(env, m, k);
      ApplyKeeps(env, k);
      KeepsTrans(env, m, k, ApplyCommitted(env, k));
      KeepsTrans(env, n, m, ApplyCommitted(env, k));
    }
  }

  lemma AppendKeeps<S(!new)>(env: Env<S>, n: Node<S>, req: AppendRequest)
    requires Lawful(env.app) && Guarded(n) && SafeLog(req.entries)
    ensures Keeps(env, n, HandleAppend(env, n, req).0)
  {
    hide Lawful, Guarded, Keeps, Replicate, Follow, Refuses, SafeEntry;
    SameGuardKeepsSelf(env, n);
    var m := Follow(n, req.term, req.leader);
    FollowKeepsGuard(env, n, req.term, req.leader);
    KeepsGuarded(env, n, m);
    if req.prevIndex < m.disk.log.base {
      var overlap := m.disk.log.base - req.prevIndex;
      if overlap <= |req.entries| {
        ReplicateKeeps(env, m, m.disk.log.base, m.disk.log.baseTerm, req.entries[overlap..], req.commit);
        KeepsTrans(env, n, m, Replicate(env, m, m.disk.log.base, m.disk.log.baseTerm, req.entries[overlap..], req.commit).0);
      }
    } else {
      ReplicateKeeps(env, m, req.prevIndex, req.prevTerm, req.entries, req.commit);
      KeepsTrans(env, n, m, Replicate(env, m, req.prevIndex, req.prevTerm, req.entries, req.commit).0);
    }
  }

  // ---------------------------------------------------------------- receiving a snapshot

  lemma LastsTrans<S>(n: Node<S>, m: Node<S>, r: Node<S>)
    requires Lasts(n, m) && Lasts(m, r)
    ensures Lasts(n, r)
  {
    hide Guarded;
  }

  lemma InstalledGuard<S>(n: Node<S>, p: Pending, state: S)
    requires Guarded(n) && n.commit < p.lastIndex && SafeImage(p.data)
    ensures Lasts(n, Installed(n, p, state))
    ensures Installed(n, p, state).trail == n.trail + [Installed(n, p, state).disk]
    ensures NewSnapshot(n.disk, Installed(n, p, state).disk)
  {
    hide SafeConfig, SafeLog, SafeImage, ImageNames, Retained;
    var r := Installed(n, p, state);
    SafeRetained(n.disk.log, p.lastIndex, p.lastTerm);
    assert Proper(n.me, n.trail + [r.disk], |n.trail|);
    ChainGrows(n.me, n.trail, r.disk);
  }

  /** The membership that a snapshot carries, and the end of the admission if it names the node. */
  lemma AdoptEnvelopeGuard<S>(n: Node<S>, e: SnapshotCodec.Envelope, index: nat)
    requires Guarded(n) && SnapshotCodec.Decode(n.disk.log.image) == Some(e) && SafeImage(n.disk.log.image)
    requires n.disk.log.base > 0 && |n.trail| >= 2
    requires NewSnapshot(n.trail[|n.trail| - 2], n.disk) && n.trail[|n.trail| - 2].admission == n.disk.admission
    ensures Lasts(n, AdoptEnvelope(n, e, index))
  {
    hide SafeConfig, SafeLog, EnvelopeConfig, Listing, Contains, IsJoint, SnapshotCodec.Decode;
    var r := AdoptEnvelope(n, e, index);
    if e.current != [] && Contains(EnvelopeConfig(e), n.me) {
      var d := n.disk.(admission := None);
      assert r.trail == n.trail + [d] && r.disk == d && r.joiningFrom == None;
      assert Admits(n.me, n.trail[|n.trail| - 2], n.disk);
      assert Proper(n.me, n.trail + [d], |n.trail|);
      ChainGrows(n.me, n.trail, d);
    }
  }

  lemma LastsFields<S>(n: Node<S>, r: Node<S>, m: Node<S>)
    requires Lasts(n, r) && m == r.(pending := m.pending)
    ensures Lasts(n, m)
  {
    hide SafeConfig, SafeLog, SafeImage, Chain;
  }

  lemma InstallGuard<S>(env: Env<S>, n: Node<S>, p: Pending)
    requires Guarded(n) && n.commit < p.lastIndex && SafeImage(p.data)
    ensures Lasts(n, InstallStream(env, n, p).0)
  {
    hide Guarded, SafeImage, AdoptEnvelope, Installed, SnapshotCodec.Decode, NewSnapshot;
    SelfLasts(n);
    LastsFields(n, n, n.(pending := None));
    var e := SnapshotCodec.Decode(p.data);
    var restored := env.app.restore(if e == None then p.data else e.value.state);
    if restored.Some? {
      var m := Installed(n, p, restored.value);
      InstalledGuard(n, p, restored.value);
      InstalledDisk(n, p, restored.value);
      GuardedLast(n);
      if e.Some? {
        AdoptEnvelopeGuard(m, e.value, p.lastIndex);
        LastsTrans(n, m, AdoptEnvelope(m, e.value, p.lastIndex));
        LastsFields(n, AdoptEnvelope(m, e.value, p.lastIndex), InstallStream(env, n, p).0);
      } else {
        LastsFields(n, m, InstallStream(env, n, p).0);
      }
    }
  }

  lemma GuardedLast<S>(n: Node<S>)
    requires Guarded(n)
    ensures n.trail != [] && n.trail[|n.trail| - 1] == n.disk
  {
    hide SafeConfig, SafeLog, SafeImage, Chain;
  }

  lemma InstalledDisk<S>(n: Node<S>, p: Pending, state: S)
    ensures var d := Installed(n, p, state).disk;
            d.log.image == p.data && d.log.base == p.lastIndex && d.admission == n.disk.admission
  {
    hide Retained;
  }

  lemma SelfLasts<S>(n: Node<S>)
    requires Guarded(n)
    ensures Lasts(n, n)
  {
    hide Guarded;
  }

  lemma ReceiveGuard<S>(env: Env<S>, n: Node<S>, req: Chunk)
    requires Guarded(n) && n.commit < req.lastIndex
    requires var s := StreamFor(n, req); s.Some? && req.done ==> SafeImage(s.value.data + req.data)
    ensures Lasts(n, ReceiveChunk(env, n, req).0)
  {
    hide Guarded, SafeImage, InstallStream, StreamFor;
    var s := StreamFor(n, req);
    SelfLasts(n);
    LastsFields(n, n, n.(pending := s));
    LastsFields(n, n, n.(pending := None));
    if s.Some? && Continues(s.value, req) {
      var q := s.value.(offset := s.value.offset + |req.data|, data := s.value.data + req.data);
      var m := n.(pending := Some(q));
      LastsFields(n, n, m);
      if req.done {
        InstallGuard(env, m, q);
        LastsTrans(n, m, InstallStream(env, m, q).0);
      }
    }
  }

  ghost predicate SafeChunk<S>(n: Node<S>, req: Chunk) {
    var s := StreamFor(Follow(n, req.term, req.leader), req);
    s.Some? && req.done ==> SafeImage(s.value.data + req.data)
  }

  lemma ChunkGuard<S(!new)>(env: Env<S>, n: Node<S>, req: Chunk)
    requires Guarded(n) && SafeChunk(n, req)
    ensures Lasts(n, HandleChunk(env, n, req).0)
  {
    hide Guarded, Follow, ReceiveChunk, Refuses, StreamFor, SafeImage;
    SelfLasts(n);
    var m := Follow(n, req.term, req.leader);
    FollowKeepsGuard(env, n, req.term, req.leader);
    KeepsLasts(env, n, m);
    LastsFields(n, m, m.(pending := None));
    if req.lastIndex > m.commit {
      ReceiveGuard(env, m, req);
      LastsTrans(n, m, ReceiveChunk(env, m, req).0);
    }
  }

  lemma KeepsLasts<S(!new)>(env: Env<S>, n: Node<S>, r: Node<S>)
    requires Keeps(env, n, r)
    ensures Lasts(n, r) && Guarded(r)
  {
    hide Guarded;
  }

  // ---------------------------------------------------------------- joining and restarting

  /** Record first, then a clean log, then a clean vote. */
  lemma JoiningGuard<S>(env: Env<S>, n: Node<S>, anchor: Id)
    requires Guarded(n)
    ensures Lasts(n, BeginJoining(env, n, anchor))
    ensures var r := BeginJoining(env, n, anchor);
            r.disk.admission.Some? && r.joiningFrom == Some(anchor) && |r.trail| == |n.trail| + 3
            && r.trail[|n.trail|].admission == r.disk.admission == Some(Admission(anchor, n.disk.log.base))
  {
    hide SafeConfig, SafeLog, SafeImage, Names;
    var d1 := n.disk.(admission := Some(Admission(anchor, n.disk.log.base)));
    var d2 := d1.(log := EMPTY);
    var d3 := d2.(vote := None);
    var r := BeginJoining(env, n, anchor);
    assert r.trail == n.trail + [d1] + [d2] + [d3] && r.disk == d3;
    EmptyIsSafe();
    ThreeWrites(n.me, n.trail, d1, d2, d3);
  }

  lemma EmptyIsSafe()
    ensures SafeLog([])
  {
  }

  lemma ThreeWrites(me: Id, ds: seq<Disk>, d1: Disk, d2: Disk, d3: Disk)
    requires ds != [] && Chain(me, ds) && d1.admission.Some?
    requires d1.admission.value.snapshotIndex == d1.log.base && d2.admission == d1.admission == d3.admission
    requires SafeDisk(d1) && SafeDisk(d2) && SafeDisk(d3)
    ensures Chain(me, ds + [d1] + [d2] + [d3])
  {
    hide Names, SafeDisk;
    var a := ds + [d1];
    assert Proper(me, a, |ds|);
    ChainGrows(me, ds, d1);
    var b := a + [d2];
    assert Proper(me, b, |a|);
    ChainGrows(me, a, d2);
    assert Proper(me, b + [d3], |b|);
    ChainGrows(me, b, d3);
  }

  /** A restart clears the record exactly if the disk is open; otherwise the node is fenced again. */
  lemma BootGuard<S(!new)>(env: Env<S>, me: Id, c0: Config, d: Disk)
    requires SafeConfig(c0) && SafeDisk(d) && Boot(env, me, c0, d).Some?
    ensures var n := Boot(env, me, c0, d).value;
            && Guarded(n) && n.me == me && n.trail == [n.disk] && n.disk.log == d.log
            && n.disk.admission == (if Open(me, d) then None else d.admission)
            && (n.joiningFrom == None <==> Open(me, d))
  {
    hide SnapshotCodec.Decode, EnvelopeConfig, Listing, Contains, IsJoint, SafeConfig, SafeLog, Effective;
  }

  // ---------------------------------------------------------------- a node's life

  datatype Act = Handle(ev: Event) | StartJoining(anchor: Id)

  function Acts<S>(env: Env<S>, n: Node<S>, act: Act): Node<S> {
    match act
    case Handle(ev) => React(env, n, ev)
    case StartJoining(anchor) => BeginJoining(env, n, anchor)
  }

  /** Members that reach the node, in entries, proposals or snapshots, survive an envelope. */
  ghost predicate SafeAct<S>(n: Node<S>, act: Act) {
    act.Handle? ==>
      match act.ev
      case Appended(req) => SafeLog(req.entries)
      case ChunkReceived(req) => SafeChunk(n, req)
      case Submitted(command) => !command.Joint?
      case JointProposed(members) => FaithfulAll(members)
      case Promoted => FaithfulAll(Promotion(n))
      case _ => true
  }

  lemma PromoteKeeps<S(!new)>(env: Env<S>, n: Node<S>)
    requires Lawful(env.app) && Guarded(n) && FaithfulAll(Promotion(n))
    ensures Keeps(env, n, PromoteJoiners(env, n))
  {
    hide Lawful, Guarded, Keeps, SubmitJoint, Promotion, FaithfulAll;
    SameGuardKeepsSelf(env, n);
    if PromoteJoiners(env, n) != n {
      JointKeeps(env, n, Promotion(n));
    }
  }

  /** With local compaction off, only an admission writes a snapshot, and never a stale membership. */
  lemma EventKeeps<S(!new)>(env: Env<S>, n: Node<S>, ev: Event)
    requires Lawful(env.app) && Guarded(n) && SafeAct(n, Handle(ev)) && !ev.ChunkReceived?
    ensures Keeps(env, n, React(env, n, ev))
  {
    hide Lawful, Guarded, Keeps, StartElection, HandleVoteRequest, HandleVoteReply, HandleAppend, HandleAppendReply,
         HandleChunkReply, SubmitCommand, SubmitJoint, SubmitJoin, BeginRead, PromoteJoiners, Promotion, FaithfulAll,
         SafeLog;
    match ev
    case Timeout => TimeoutKeeps(env, n);
    case VoteRequested(req) => VoteRequestKeeps(env, n, req);
    case VoteAnswered(peer, reply) => VoteReplyKeeps(env, n, peer, reply);
    case Appended(req) => AppendKeeps(env, n, req);
    case AppendAnswered(peer, reply) => AppendReplyKeeps(env, n, peer, reply);
    case ChunkAnswered(peer, reply, next, done) => ChunkReplyKeeps(env, n, peer, reply, next, done);
    case Submitted(command) => SubmitKeeps(env, n, command);
    case JointProposed(members) => JointKeeps(env, n, members);
    case JoinProposed(joiner) => JoinKeeps(env, n, joiner);
    case Promoted => PromoteKeeps(env, n);
    case ReadBegun(query, token) => ReadKeeps(env, n, query, token);
  }

  lemma ActLasts<S(!new)>(env: Env<S>, n: Node<S>, act: Act)
    requires Lawful(env.app) && Guarded(n) && SafeAct(n, act)
    ensures Lasts(n, Acts(env, n, act))
  {
    hide Lawful, Guarded, React, BeginJoining, SafeChunk;
    match act
    case StartJoining(anchor) => JoiningGuard(env, n, anchor);
    case Handle(ev) =>
      if ev.ChunkReceived? {
        ChunkGuard(env, n, ev.chunk);
        ReactChunk(env, n, ev.chunk);
      } else {
        EventKeeps(env, n, ev);
        KeepsLasts(env, n, React(env, n, ev));
      }
  }

  lemma ReactChunk<S>(env: Env<S>, n: Node<S>, req: Chunk)
    ensures React(env, n, ChunkReceived(req)) == HandleChunk(env, n, req).0
  {
    hide HandleChunk;
  }

  /** A running node, and what earlier incarnations wrote to its disk. */
  datatype Life<S> = Life(node: Node<S>, past: seq<Disk>)

  function History<S>(l: Life<S>): seq<Disk> {
    l.past + l.node.trail
  }

  ghost predicate Works<S>(env: Env<S>, l: Life<S>, l': Life<S>, act: Act) {
    SafeAct(l.node, act) && l' == Life(Acts(env, l.node, act), l.past)
  }

  /** The node stops after the durable write `k` of an act and starts again from it. */
  ghost predicate Dies<S>(env: Env<S>, c0: Config, l: Life<S>, l': Life<S>, act: Act, k: nat) {
    && SafeAct(l.node, act)
    && var r := Acts(env, l.node, act);
       && |l.node.trail| <= k < |r.trail|
       && Boot(env, l.node.me, c0, r.trail[k]) == Some(l'.node)
       && l'.past == l.past + r.trail[..k + 1]
  }

  ghost predicate Rests<S>(env: Env<S>, c0: Config, l: Life<S>, l': Life<S>) {
    Boot(env, l.node.me, c0, l.node.disk) == Some(l'.node) && l'.past == History(l)
  }

  ghost predicate LifeStep<S>(env: Env<S>, c0: Config, l: Life<S>, l': Life<S>) {
    || (exists act :: Works(env, l, l', act))
    || (exists act, k :: Dies(env, c0, l, l', act, k))
    || Rests(env, c0, l, l')
  }

  ghost predicate Alive<S>(env: Env<S>, c0: Config, me: Id, ls: seq<Life<S>>) {
    && ls != [] && Boot(env, me, c0, Disk(0, None, None, EMPTY)) == Some(ls[0].node) && ls[0].past == []
    && forall i :: 0 <= i < |ls| - 1 ==> LifeStep(env, c0, ls[i], ls[i + 1])
  }

  ghost predicate LifeOk<S>(me: Id, l: Life<S>) {
    Guarded(l.node) && l.node.me == me && Chain(me, l.past + [l.node.trail[0]])
  }

  lemma ChainJoin(me: Id, past: seq<Disk>, trail: seq<Disk>)
    requires trail != [] && Chain(me, trail) && Chain(me, past + [trail[0]])
    ensures Chain(me, past + trail)
  {
    hide Open, Admits, SafeDisk;
    var ds := past + trail;
    var xs := past + [trail[0]];
    forall k | 0 < k < |ds| ensures Proper(me, ds, k) {
      if k <= |past| {
        assert Proper(me, xs, k);
        assert ds[k] == xs[k] && ds[k - 1] == xs[k - 1];
      } else {
        assert Proper(me, trail, k - |past|);
      }
    }
    forall k | 0 <= k < |ds| ensures SafeDisk(ds[k]) {
      assert k < |past| ==> ds[k] == xs[k];
    }
  }

  lemma BootChain<S(!new)>(env: Env<S>, me: Id, c0: Config, ds: seq<Disk>, l': Life<S>)
    requires SafeConfig(c0) && ds != [] && Chain(me, ds)
    requires Boot(env, me, c0, ds[|ds| - 1]) == Some(l'.node) && l'.past == ds
    ensures LifeOk(me, l')
  {
    hide Boot, SafeConfig, Admits, Open;
    var d := ds[|ds| - 1];
    BootGuard(env, me, c0, d);
    BootedSafe(l'.node);
    assert Proper(me, ds + [l'.node.disk], |ds|);
    ChainGrows(me, ds, l'.node.disk);
  }

  lemma BootedSafe<S>(n: Node<S>)
    requires Guarded(n)
    ensures SafeDisk(n.disk)
  {
    hide SafeConfig, SafeDisk, Chain;
  }

  lemma GuardedChain<S>(n: Node<S>)
    requires Guarded(n)
    ensures Chain(n.me, n.trail)
  {
    hide SafeConfig, SafeDisk, Chain;
  }

  lemma DiesOk<S(!new)>(env: Env<S>, c0: Config, me: Id, l: Life<S>, l': Life<S>, act: Act, k: nat)
    requires Lawful(env.app) && SafeConfig(c0) && LifeOk(me, l) && Dies(env, c0, l, l', act, k)
    ensures LifeOk(me, l')
  {
    hide Lawful, Guarded, SafeConfig, Chain, Boot, Acts, SafeAct;
    var r := Acts(env, l.node, act);
    ActLasts(env, l.node, act);
    GuardedLast(l.node);
    GuardedChain(r);
    ChainJoin(me, l.past, r.trail);
    var ds := l.past + r.trail[..k + 1];
    assert ds == (l.past + r.trail)[..|l.past| + k + 1];
    ChainPrefix(me, l.past + r.trail, |l.past| + k + 1);
    BootChain(env, me, c0, ds, l');
  }

  lemma StepOk<S(!new)>(env: Env<S>, c0: Config, me: Id, l: Life<S>, l': Life<S>)
    requires Lawful(env.app) && SafeConfig(c0) && LifeOk(me, l) && LifeStep(env, c0, l, l')
    ensures LifeOk(me, l')
  {
    hide Lawful, Guarded, SafeConfig, Chain, Boot, Acts, SafeAct, Dies;
    GuardedLast(l.node);
    GuardedChain(l.node);
    ChainJoin(me, l.past, l.node.trail);
    if act :| Works(env, l, l', act) {
      ActLasts(env, l.node, act);
    } else if act, k :| Dies(env, c0, l, l', act, k) {
      DiesOk(env, c0, me, l, l', act, k);
    } else {
      BootChain(env, me, c0, History(l), l');
    }
  }

  lemma {:induction false} LifeIsOk<S(!new)>(env: Env<S>, c0: Config, me: Id, ls: seq<Life<S>>, i: nat)
    requires Lawful(env.app) && SafeConfig(c0) && Alive(env, c0, me, ls) && i < |ls|
    ensures LifeOk(me, ls[i])
    decreases i
  {
    hide Lawful, SafeConfig, Boot, LifeStep, Guarded, Chain;
    if i == 0 {
      BlankIsSafe();
      BootGuard(env, me, c0, Disk(0, None, None, EMPTY));
      GuardedChain(ls[0].node);
      assert [] + [ls[0].node.trail[0]] == ls[0].node.trail;
    } else {
      LifeIsOk(env, c0, me, ls, i - 1);
      assert LifeStep(env, c0, ls[i - 1], ls[i - 1 + 1]);
      StepOk(env, c0, me, ls[i - 1], ls[i]);
    }
  }

  lemma BlankIsSafe()
    ensures SafeDisk(Disk(0, None, None, EMPTY))
  {
  }

  /** The node is about to grant this vote, or to campaign. */
  ghost predicate TakesPart<S>(n: Node<S>, req: VoteRequest) {
    HandleVoteRequest(n, req).1.granted || MayCampaign(n)
  }

  lemma TakesPartUnfenced<S>(n: Node<S>, req: VoteRequest)
    requires TakesPart(n, req)
    ensures n.joiningFrom == None
  {
    hide Effective, IsVoter, LogIsCurrent;
  }

  /**
   * At whatever durable write the node may have stopped since its admission record `r` was written,
   * it neither votes nor campaigns until its disk has held a membership snapshot that names it; and
   * where the record is gone, that snapshot was written before.
   */
  lemma JoinFenceHolds<S(!new)>(env: Env<S>, c0: Config, me: Id, ls: seq<Life<S>>, i: nat, r: nat, req: VoteRequest)
    requires Lawful(env.app) && SafeConfig(c0) && Alive(env, c0, me, ls) && i < |ls|
    requires Records(History(ls[i]), r)
    ensures TakesPart(ls[i].node, req) ==> AdmittedBetween(me, History(ls[i]), r, |History(ls[i])| - 1)
    ensures forall k :: r <= k < |History(ls[i])| && History(ls[i])[k].admission == None ==>
              AdmittedBetween(me, History(ls[i]), r, k)
  {
    hide Lawful, SafeConfig, Alive, Chain, SafeDisk, Records, AdmittedBetween, Names, TakesPart;
    var l := ls[i];
    LifeIsOk(env, c0, me, ls, i);
    GuardedLast(l.node);
    GuardedChain(l.node);
    ChainJoin(me, l.past, l.node.trail);
    var ds := History(l);
    forall k | r <= k < |ds| && ds[k].admission == None ensures AdmittedBetween(me, ds, r, k) {
      FenceHolds(me, ds, r, k);
    }
    if TakesPart(l.node, req) {
      TakesPartUnfenced(l.node, req);
      assert ds[|ds| - 1] == l.node.disk;
      RecordInside(ds, r);
    }
  }

  lemma RecordInside(ds: seq<Disk>, r: nat)
    requires Records(ds, r)
    ensures 0 < r < |ds|
  {
  }

  /**
   * With local compaction off, no handler other than snapshot reception replaces the snapshot of a
   * node, except to seal the membership that the entry at exactly that index brought, with the node
   * in it.
   */
  lemma AdmissionsOnly<S(!new)>(env: Env<S>, c0: Config, me: Id, ls: seq<Life<S>>, i: nat, ev: Event)
    requires Lawful(env.app) && SafeConfig(c0) && Alive(env, c0, me, ls) && i < |ls| && env.minEntries == 0
    requires SafeAct(ls[i].node, Handle(ev)) && !ev.ChunkReceived?
    ensures OnlyAdmissions(env, me, ls[i].node.trail, React(env, ls[i].node, ev).trail)
  {
    hide Lawful, SafeConfig, Alive, Chain, SafeAct, React, Guarded, OnlyAdmissions;
    LifeIsOk(env, c0, me, ls, i);
    EventKeeps(env, ls[i].node, ev);
  }

  // ---------------------------------------------------------------- where an admitting snapshot comes from

  /** The act completed a stream, and the write stores its snapshot. */
  ghost predicate FromStream<S>(n: Node<S>, act: Act, d: Disk) {
    && act.Handle? && act.ev.ChunkReceived? && Completed(n, act.ev.chunk).Some?
    && var s := Completed(n, act.ev.chunk).value; d.log.image == s.data && d.log.base == s.lastIndex
  }

  lemma StreamWrites<S>(env: Env<S>, n: Node<S>, s: Pending, k: nat)
    requires |n.trail| <= k < |InstallStream(env, n, s).0.trail|
    ensures var l := InstallStream(env, n, s).0.trail[k].log; l.image == s.data && l.base == s.lastIndex
  {
    hide SnapshotCodec.Decode, AdoptEnvelope, Installed;
    InstallWrites(env, n, s);
    var e := SnapshotCodec.Decode(s.data);
    var restored := env.app.restore(if e == None then s.data else e.value.state);
    if restored.Some? {
      InstalledImage(n, s, restored.value);
      if e.Some? {
        AdoptWrites(Installed(n, s, restored.value), e.value, s.lastIndex);
      }
    }
  }

  lemma InstalledImage<S>(n: Node<S>, s: Pending, state: S)
    ensures var l := Installed(n, s, state).disk.log; l.image == s.data && l.base == s.lastIndex
  {
    InstallBase(n.disk.log, s.lastIndex, s.lastTerm, s.data);
  }

  /** A chunk writes nothing but terms, votes and the snapshot of the stream it completes. */
  lemma ChunkWrites<S>(env: Env<S>, n: Node<S>, req: Chunk, k: nat)
    requires n.trail != [] && n.trail[|n.trail| - 1] == n.disk
    requires |n.trail| <= k < |HandleChunk(env, n, req).0.trail|
    ensures var t := HandleChunk(env, n, req).0.trail;
            t[k].log == t[k - 1].log || FromStream(n, Handle(ChunkReceived(req)), t[k])
  {
    hide Refuses, Follow, ReceiveChunk, InstallStream, StreamFor, Continues;
    if n.term <= req.term && !Refuses(n, req.term, req.leader) {
      var m := Follow(n, req.term, req.leader);
      FollowWrites(n, req.term, req.leader);
      if req.lastIndex > m.commit {
        ReceiveCore(env, m, req);
        if Completed(n, req).Some? {
          var q := Completed(n, req).value;
          InstallWrites(env, m.(pending := Some(q)), q);
          if |m.trail| <= k {
            StreamWrites(env, m.(pending := Some(q)), q, k);
          }
        }
      }
    }
  }

  lemma JoiningAdmitsNothing<S>(env: Env<S>, n: Node<S>, anchor: Id, k: nat)
    requires Guarded(n) && |n.trail| <= k < |BeginJoining(env, n, anchor).trail|
    ensures var t := BeginJoining(env, n, anchor).trail; k > 0 && !Admits(n.me, t[k - 1], t[k])
  {
    hide ImageNames, SafeConfig, SafeLog, SafeImage, Chain, FenceMatches;
  }

  /** With local compaction off, a write that admits the node seals a membership or ends a stream. */
  lemma ActAdmits<S(!new)>(env: Env<S>, n: Node<S>, act: Act, k: nat)
    requires Lawful(env.app) && Guarded(n) && SafeAct(n, act) && env.minEntries == 0
    requires |n.trail| <= k < |Acts(env, n, act).trail|
    ensures var t := Acts(env, n, act).trail;
            k > 0 && (Admits(n.me, t[k - 1], t[k]) ==> SealsAdmission(env, n.me, t[k - 1], t[k]) || FromStream(n, act, t[k]))
  {
    hide Lawful, Guarded, SafeAct, React, BeginJoining, SealsAdmission, FromStream, Names;
    ActLasts(env, n, act);
    GuardedLast(n);
    var t := Acts(env, n, act).trail;
    match act
    case StartJoining(anchor) => JoiningAdmitsNothing(env, n, anchor, k);
    case Handle(ev) =>
      if ev.ChunkReceived? {
        ReactChunk(env, n, ev.chunk);
        ChunkAdmits(env, n, ev.chunk, k);
      } else {
        EventKeeps(env, n, ev);
      }
  }

  lemma ChunkAdmits<S>(env: Env<S>, n: Node<S>, req: Chunk, k: nat)
    requires n.trail != [] && n.trail[|n.trail| - 1] == n.disk
    requires |n.trail| <= k < |HandleChunk(env, n, req).0.trail|
    ensures var t := HandleChunk(env, n, req).0.trail;
            Admits(n.me, t[k - 1], t[k]) ==> FromStream(n, Handle(ChunkReceived(req)), t[k])
  {
    hide HandleChunk, FromStream, Names;
    ChunkWrites(env, n, req, k);
  }

  // ---------------------------------------------------------------- how a node was admitted

  /** The step wrote the snapshot of a stream that it completed. */
  ghost predicate StepReceives<S>(env: Env<S>, c0: Config, l: Life<S>, l': Life<S>, d: Disk) {
    exists act :: FromStream(l.node, act, d) && (Works(env, l, l', act) || exists k :: Dies(env, c0, l, l', act, k))
  }

  /** The write `m` of the life was made by a step that completed a stream, and stores its snapshot. */
  ghost predicate Received<S>(env: Env<S>, c0: Config, ls: seq<Life<S>>, i: nat, m: nat) {
    exists j :: 0 <= j < i < |ls| && |History(ls[j])| <= m < |History(ls[j + 1])|
                && StepReceives(env, c0, ls[j], ls[j + 1], History(ls[j + 1])[m])
  }

  /** Where an admitting write may come from. */
  ghost predicate Accounted<S(!new)>(env: Env<S>, c0: Config, me: Id, ls: seq<Life<S>>, i: nat, m: nat)
    requires i < |ls| && 0 < m < |History(ls[i])|
  {
    SealsAdmission(env, me, History(ls[i])[m - 1], History(ls[i])[m]) || Received(env, c0, ls, i, m)
  }

  /** What one step adds to the history. */
  lemma StepHistory<S(!new)>(env: Env<S>, c0: Config, me: Id, l: Life<S>, l': Life<S>, m: nat)
    requires Lawful(env.app) && SafeConfig(c0) && LifeOk(me, l) && LifeStep(env, c0, l, l') && env.minEntries == 0
    ensures History(l) <= History(l') && History(l) != []
    ensures var ds := History(l');
            |History(l)| <= m < |ds| && Admits(me, ds[m - 1], ds[m]) ==>
              SealsAdmission(env, me, ds[m - 1], ds[m]) || StepReceives(env, c0, l, l', ds[m])
  {
    hide Lawful, Guarded, SafeConfig, Chain, Boot, Acts, SafeAct, SealsAdmission, FromStream, Names;
    GuardedLast(l.node);
    if act :| Works(env, l, l', act) {
      ActLasts(env, l.node, act);
      if |History(l)| <= m < |History(l')| {
        ActAdmits(env, l.node, act, m - |l.past|);
      }
    } else if act, k :| Dies(env, c0, l, l', act, k) {
      DiesHistory(env, c0, me, l, l', act, k, m);
    } else {
      LastDisk(l);
      GuardedChain(l.node);
      ChainJoin(me, l.past, l.node.trail);
      BootWrites(env, me, c0, History(l), l');
    }
  }

  lemma LastDisk<S>(l: Life<S>)
    requires Guarded(l.node)
    ensures History(l) != [] && History(l)[|History(l)| - 1] == l.node.disk
  {
    hide Guarded;
    GuardedLast(l.node);
  }

  /** A restart writes at most the end of an admission. */
  lemma BootWrites<S(!new)>(env: Env<S>, me: Id, c0: Config, ds: seq<Disk>, l': Life<S>)
    requires SafeConfig(c0) && ds != [] && Chain(me, ds)
    requires Boot(env, me, c0, ds[|ds| - 1]) == Some(l'.node) && l'.past == ds
    ensures |History(l')| == |ds| + 1 && ds <= History(l') && History(l')[|ds|].log == ds[|ds| - 1].log
  {
    hide Boot, SafeConfig, Proper, SafeDisk, Guarded, Open;
    assert SafeDisk(ds[|ds| - 1]);
    BootGuard(env, me, c0, ds[|ds| - 1]);
  }

  lemma DiesHistory<S(!new)>(env: Env<S>, c0: Config, me: Id, l: Life<S>, l': Life<S>, act: Act, k: nat, m: nat)
    requires Lawful(env.app) && SafeConfig(c0) && LifeOk(me, l) && Dies(env, c0, l, l', act, k) && env.minEntries == 0
    ensures History(l) <= History(l')
    ensures var ds := History(l');
            |History(l)| <= m < |ds| && Admits(me, ds[m - 1], ds[m]) ==>
              SealsAdmission(env, me, ds[m - 1], ds[m]) || FromStream(l.node, act, ds[m])
  {
    hide Lawful, Guarded, SafeConfig, Chain, Boot, Acts, SafeAct, SealsAdmission, FromStream, Names;
    var r := Acts(env, l.node, act);
    ActLasts(env, l.node, act);
    GuardedLast(l.node);
    GuardedChain(r);
    ChainJoin(me, l.past, r.trail);
    var ds := l.past + r.trail[..k + 1];
    assert ds == (l.past + r.trail)[..|l.past| + k + 1];
    ChainPrefix(me, l.past + r.trail, |l.past| + k + 1);
    BootWrites(env, me, c0, ds, l');
    if |History(l)| <= m < |ds| {
      ActAdmits(env, l.node, act, m - |l.past|);
    }
  }

  /** With local compaction off, every write that admits the node is accounted for. */
  lemma {:induction false} AdmissionAccounted<S(!new)>(env: Env<S>, c0: Config, me: Id, ls: seq<Life<S>>, i: nat, m: nat)
    requires Lawful(env.app) && SafeConfig(c0) && Alive(env, c0, me, ls) && i < |ls| && env.minEntries == 0
    requires 0 < m < |History(ls[i])| && Admits(me, History(ls[i])[m - 1], History(ls[i])[m])
    ensures Accounted(env, c0, me, ls, i, m)
    decreases i
  {
    hide Lawful, SafeConfig, Boot, LifeStep, LifeOk, Admits, SealsAdmission, StepReceives;
    if i == 0 {
      FirstHistory(env, c0, me, ls);
    } else {
      LifeIsOk(env, c0, me, ls, i - 1);
      assert LifeStep(env, c0, ls[i - 1], ls[i - 1 + 1]);
      StepHistory(env, c0, me, ls[i - 1], ls[i], m);
      if m < |History(ls[i - 1])| {
        AdmissionAccounted(env, c0, me, ls, i - 1, m);
        ReceivedStays(env, c0, ls, i - 1, m);
      } else if !SealsAdmission(env, me, History(ls[i])[m - 1], History(ls[i])[m]) {
        assert StepReceives(env, c0, ls[i - 1], ls[i - 1 + 1], History(ls[i - 1 + 1])[m]);
      }
    }
  }

  lemma FirstHistory<S(!new)>(env: Env<S>, c0: Config, me: Id, ls: seq<Life<S>>)
    requires SafeConfig(c0) && Alive(env, c0, me, ls)
    ensures |History(ls[0])| == 1
  {
    hide Boot, SafeConfig, LifeStep, Guarded, Open;
    BlankIsSafe();
    BootGuard(env, me, c0, Disk(0, None, None, EMPTY));
  }

  lemma ReceivedStays<S>(env: Env<S>, c0: Config, ls: seq<Life<S>>, i: nat, m: nat)
    requires i + 1 < |ls|
    ensures Received(env, c0, ls, i, m) ==> Received(env, c0, ls, i + 1, m)
  {
    hide StepReceives;
  }

  ghost predicate DulyAdmitted<S(!new)>(env: Env<S>, c0: Config, me: Id, ls: seq<Life<S>>, i: nat, r: nat, k: nat)
    requires i < |ls|
  {
    var ds := History(ls[i]);
    exists m :: 0 <= r < m <= k < |ds| && Admits(me, ds[m - 1], ds[m]) && Accounted(env, c0, me, ls, i, m)
  }

  /**
   * With local compaction off, whatever write the node may have stopped at since its admission record
   * `r`: before it votes or campaigns, and before the record is gone, its disk has held a snapshot
   * naming it that it received whole from a leader, or that it sealed itself when it applied the
   * membership entry that named it.
   */
  lemma JoinFenceAccounted<S(!new)>(env: Env<S>, c0: Config, me: Id, ls: seq<Life<S>>, i: nat, r: nat, req: VoteRequest)
    requires Lawful(env.app) && SafeConfig(c0) && Alive(env, c0, me, ls) && i < |ls| && env.minEntries == 0
    requires Records(History(ls[i]), r)
    ensures TakesPart(ls[i].node, req) ==> DulyAdmitted(env, c0, me, ls, i, r, |History(ls[i])| - 1)
    ensures forall k :: r <= k < |History(ls[i])| && History(ls[i])[k].admission == None ==>
              DulyAdmitted(env, c0, me, ls, i, r, k)
  {
    hide Lawful, SafeConfig, Alive, Records, TakesPart, Admits, Accounted, History, AdmittedBetween, DulyAdmitted;
    JoinFenceHolds(env, c0, me, ls, i, r, req);
    var ds := History(ls[i]);
    forall k | r <= k < |ds| && ds[k].admission == None ensures DulyAdmitted(env, c0, me, ls, i, r, k) {
      Accounts(env, c0, me, ls, i, r, k);
    }
    if TakesPart(ls[i].node, req) {
      RecordInside(ds, r);
      Accounts(env, c0, me, ls, i, r, |ds| - 1);
    }
  }

  lemma Accounts<S(!new)>(env: Env<S>, c0: Config, me: Id, ls: seq<Life<S>>, i: nat, r: nat, k: nat)
    requires Lawful(env.app) && SafeConfig(c0) && Alive(env, c0, me, ls) && i < |ls| && env.minEntries == 0
    requires AdmittedBetween(me, History(ls[i]), r, k)
    ensures DulyAdmitted(env, c0, me, ls, i, r, k)
  {
    hide Lawful, SafeConfig, Alive, Admits, Accounted, History;
    var ds := History(ls[i]);
    var m :| r < m <= k < |ds| && Admits(me, ds[m - 1], ds[m]);
    AdmissionAccounted(env, c0, me, ls, i, m);
  }
}
