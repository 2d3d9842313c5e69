/**
 * What one node's volatile state owes to its log.
 *
 * `h` is the node's whole log; compaction hides a prefix of it and changes nothing else.
 */
module Coherence {
  import opened Basics
  import opened RaftTypes
  import opened Membership
  import opened LogStore
  import opened Node
  import SnapshotCodec
  import EnvelopeRoundTrip

  // ---------------------------------------------------------------- meaning of a log

  function ApplyTo<S>(app: Machine<S>, s: S, e: Entry): S {
    if e.command.App? then app.apply(s, e.term, e.command.data) else s
  }

  /** The application state after every command of a log, each once and in order. */
  function Fold<S>(app: Machine<S>, h: seq<Entry>): S {
    if h == [] then app.initial else ApplyTo(app, Fold(app, h[..|h| - 1]), h[|h| - 1])
  }

  ghost predicate Lawful<S(!new)>(app: Machine<S>) {
    forall s :: app.restore(app.snapshot(s)) == Some(s)
  }

  /** Members that a snapshot envelope carries without loss. */
  ghost predicate SafeMembers(m: Members) {
    WellKeyed(m) && forall k :: k in m ==> EnvelopeRoundTrip.Faithful(m[k])
  }

  ghost predicate SafeConfig(c: Config) {
    SafeMembers(c.current) && SafeMembers(c.next) && c.current != map[]
  }

  ghost predicate SafeEntry(e: Entry) {
    e.command.Joint? ==> forall p :: p in e.command.members ==> EnvelopeRoundTrip.Faithful(p)
  }

  ghost predicate SafeLog(h: seq<Entry>) {
    forall i :: 0 <= i < |h| ==> SafeEntry(h[i])
  }

  lemma FoldStep<S>(app: Machine<S>, c: Config, h: seq<Entry>, i: nat)
    requires i < |h|
    ensures Fold(app, h[..i + 1]) == ApplyTo(app, Fold(app, h[..i]), h[i])
    ensures FoldConfig(c, h[..i + 1]) == ConfigAfter(FoldConfig(c, h[..i]), h[i])
  {
    assert h[..i + 1][..i] == h[..i];
  }

  lemma {:induction false} FoldConfigConcat(c: Config, a: seq<Entry>, b: seq<Entry>)
    ensures FoldConfig(c, a + b) == FoldConfig(FoldConfig(c, a), b)
  {
    if b == [] {
      assert a + b == a;
    } else {
      assert (a + b)[..|a + b| - 1] == a + b[..|b| - 1];
      FoldConfigConcat(c, a, b[..|b| - 1]);
    }
  }

  lemma {:induction false} FoldIsSafe(c: Config, h: seq<Entry>)
    requires SafeConfig(c) && SafeLog(h)
    ensures SafeConfig(FoldConfig(c, h))
  {
    if h != [] {
      FoldIsSafe(c, h[..|h| - 1]);
      assert SafeEntry(h[|h| - 1]);
      if h[|h| - 1].command.Joint? {
        FromPeersKeyed(h[|h| - 1].command.members);
      }
    }
  }

  // ---------------------------------------------------------------- snapshots

  /** `image` restores the state `s` and names the configuration `c`. */
  ghost predicate ImageOk<S>(app: Machine<S>, c: Config, s: S, image: Bytes) {
    var e := SnapshotCodec.Decode(image);
    && e.Some?
    && e.value.current == Listing(c.current) && e.value.next == Listing(c.next)
    && app.restore(e.value.state) == Some(s)
  }

  lemma ListingIsFaithful(m: Members)
    requires SafeMembers(m)
    ensures forall p :: p in Listing(m) ==> EnvelopeRoundTrip.Faithful(p)
  {
    hide EnvelopeRoundTrip.Faithful;
    forall p | p in Listing(m) ensures EnvelopeRoundTrip.Faithful(p) {
      ListingHolds(m, p);
    }
  }

  lemma SealedImageOk<S(!new)>(app: Machine<S>, c: Config, s: S, epoch: nat)
    requires Lawful(app) && SafeConfig(c)
    ensures ImageOk(app, c, s, SnapshotCodec.Wrap(Listing(c.current), Listing(c.next), epoch, app.snapshot(s)))
  {
    hide SnapshotCodec.Decode, SnapshotCodec.Wrap, Listing, EnvelopeRoundTrip.Faithful, EnvelopeRoundTrip.SeenAll;
    ListingIsFaithful(c.current);
    ListingIsFaithful(c.next);
    EnvelopeRoundTrip.SeenAllFaithful(Listing(c.current));
    EnvelopeRoundTrip.SeenAllFaithful(Listing(c.next));
    EnvelopeRoundTrip.DecodeOfWrap(Listing(c.current), Listing(c.next), epoch, app.snapshot(s));
  }

  lemma EnvelopeNames(c: Config, e: SnapshotCodec.Envelope)
    requires SafeConfig(c) && e.current == Listing(c.current) && e.next == Listing(c.next)
    ensures e.current != [] && EnvelopeConfig(e) == c
  {
    ListingRebuilds(c.current);
    ListingRebuilds(c.next);
  }

  // ---------------------------------------------------------------- coherence

  /** The part of a node that its log determines. */
  datatype Core<S> = Core(log: Log, commit: nat, applied: nat, config: Config, snapConfig: Config, machine: S)

  function CoreOf<S>(n: Node<S>): Core<S> {
    Core(n.disk.log, n.commit, n.applied, n.config, n.snapConfig, n.machine)
  }

  ghost predicate Coherent<S>(app: Machine<S>, c0: Config, x: Core<S>, h: seq<Entry>) {
    && Represents(x.log, h)
    && x.log.base <= x.applied <= x.commit <= |h|
    && x.config == FoldConfig(c0, h[..x.applied])
    && x.snapConfig == FoldConfig(c0, h[..x.log.base])
    && x.machine == Fold(app, h[..x.applied])
    && (x.log.base > 0 ==> ImageOk(app, x.snapConfig, Fold(app, h[..x.log.base]), x.log.image))
  }

  /** The configuration in force at an index is the fold of the whole log up to it. */
  lemma ConfigurationIsFold<S>(app: Machine<S>, c0: Config, n: Node<S>, h: seq<Entry>, index: nat)
    requires Coherent(app, c0, CoreOf(n), h) && n.disk.log.base <= index <= |h|
    ensures ConfigurationAt(n, index) == FoldConfig(c0, h[..index])
  {
    hide ImageOk, Fold, FoldConfig;
    var l := n.disk.log;
    var part := l.entries[..index - l.base];
    assert h[..index] == h[..l.base] + part;
    FoldConfigConcat(c0, h[..l.base], part);
  }

  lemma LongerHistory<S>(app: Machine<S>, c0: Config, x: Core<S>, h: seq<Entry>, es: seq<Entry>)
    requires Coherent(app, c0, x, h)
    ensures Coherent(app, c0, x.(log := AppendAll(x.log, es)), h + es)
  {
    hide ImageOk, Fold, FoldConfig;
    AppendRepresents(x.log, h, es);
    assert (h + es)[..x.applied] == h[..x.applied];
    assert (h + es)[..x.log.base] == h[..x.log.base];
  }

  lemma HigherCommit<S>(app: Machine<S>, c0: Config, x: Core<S>, h: seq<Entry>, commit: nat)
    requires Coherent(app, c0, x, h) && x.applied <= commit <= |h|
    ensures Coherent(app, c0, x.(commit := commit), h)
  {
  }

  /** Snapshotting the applied state hides the applied prefix. */
  lemma CompactCore<S>(app: Machine<S>, c0: Config, x: Core<S>, h: seq<Entry>, image: Bytes)
    requires Coherent(app, c0, x, h) && ImageOk(app, x.config, x.machine, image)
    ensures Coherent(app, c0,
                     x.(log := InstallSnapshot(x.log, x.applied, TermAt(x.log, x.applied), image),
                        snapConfig := x.config), h)
  {
    hide ImageOk, Fold, FoldConfig;
    QueriesAgree(x.log, h);
    CompactRepresents(x.log, h, x.applied, image);
  }

  lemma StepCore<S>(app: Machine<S>, c0: Config, x: Core<S>, h: seq<Entry>)
    requires Coherent(app, c0, x, h) && x.applied < x.commit
    ensures x.applied < |h| && EntryAt(x.log, x.applied + 1) == Some(h[x.applied])
    ensures Coherent(app, c0, x.(applied := x.applied + 1, config := ConfigAfter(x.config, h[x.applied]),
                                 machine := ApplyTo(app, x.machine, h[x.applied])), h)
  {
    hide ImageOk, ConfigAfter, ApplyTo;
    QueriesAgree(x.log, h);
    FoldStep(app, c0, h, x.applied);
  }

  // ---------------------------------------------------------------- the steps in terms of the core

  function Envelope<S>(app: Machine<S>, c: Config, s: S, epoch: nat): Bytes {
    SnapshotCodec.Wrap(Listing(c.current), Listing(c.next), epoch, app.snapshot(s))
  }

  function Compacted<S>(app: Machine<S>, x: Core<S>, epoch: nat): Core<S> {
    x.(log := InstallSnapshot(x.log, x.applied, TermAt(x.log, x.applied), Envelope(app, x.config, x.machine, epoch)),
       snapConfig := x.config)
  }

  lemma CompactedCoherent<S(!new)>(app: Machine<S>, c0: Config, x: Core<S>, h: seq<Entry>, epoch: nat)
    requires Lawful(app) && SafeConfig(c0) && SafeLog(h) && Coherent(app, c0, x, h)
    ensures Coherent(app, c0, Compacted(app, x, epoch), h)
  {
    hide ImageOk, Fold, InstallSnapshot;
    FoldIsSafe(c0, h[..x.applied]);
    SealedImageOk(app, x.config, x.machine, epoch);
    CompactCore(app, c0, x, h, Envelope(app, x.config, x.machine, epoch));
  }

  lemma ReconfigureCore<S>(env: Env<S>, n: Node<S>, e: Entry)
    requires e.command.IsMembership()
    ensures var x := CoreOf(n).(config := ConfigAfter(n.config, e));
            var r := CoreOf(Reconfigure(env, n, e.command));
            r == x || r == Compacted(env.app, x, n.applied)
  {
    hide Admit, Resign, ForgetStrangers, AdoptConfig, CoreOf, Compacted, ConfigAfter;
    var a := AdoptConfig(n, e.command);
    AdoptCore(n, e);
    AdmitCore(env, a);
    ResignCore(Admit(env, a));
    ForgetCore(Resign(Admit(env, a)));
  }

  /** A configuration change never makes a leader. */
  lemma ReconfigureRole<S>(env: Env<S>, n: Node<S>, command: Command)
    requires command.IsMembership()
    ensures n.role != Leader ==> Reconfigure(env, n, command).role != Leader
    ensures Reconfigure(env, n, command).commit == n.commit
  {
    hide Seal, InstallSnapshot, TransitionTo, Contains, IsVoter;
  }

  lemma FollowersNeverFinalize<S>(env: Env<S>, n: Node<S>)
    ensures n.role != Leader ==> MaybeAutoFinalize(env, n) == n
  {
    hide AdvanceCommit;
  }

  lemma AdoptCore<S>(n: Node<S>, e: Entry)
    requires e.command.IsMembership()
    ensures CoreOf(AdoptConfig(n, e.command)) == CoreOf(n).(config := ConfigAfter(n.config, e))
    ensures AdoptConfig(n, e.command).applied == n.applied
  {
    hide TransitionTo, FinalizeTransition, Contains;
  }

  lemma AdmitCore<S>(env: Env<S>, n: Node<S>)
    ensures CoreOf(Admit(env, n)) == CoreOf(n) || CoreOf(Admit(env, n)) == Compacted(env.app, CoreOf(n), n.applied)
  {
    hide InstallSnapshot, SnapshotCodec.Wrap, Listing, Contains;
  }

  lemma ResignCore<S>(n: Node<S>)
    ensures CoreOf(Resign(n)) == CoreOf(n)
  {
    hide IsVoter;
  }

  lemma ForgetCore<S>(n: Node<S>)
    ensures CoreOf(ForgetStrangers(n)) == CoreOf(n)
  {
  }

  lemma CompactNodeCore<S>(env: Env<S>, n: Node<S>)
    requires n.applied == n.commit
    ensures var r := CoreOf(MaybeCompact(env, n)); r == CoreOf(n) || r == Compacted(env.app, CoreOf(n), n.epoch)
  {
    hide InstallSnapshot, SnapshotCodec.Wrap, Listing;
  }

  // ---------------------------------------------------------------- re-entrant application

  ghost predicate HasJoint(h: seq<Entry>) {
    exists i :: 0 <= i < |h| && h[i].command.Joint?
  }

  /** The log grew by Finalize entries, if at all, and only because a Joint was applied. */
  ghost predicate Grown(h: seq<Entry>, h': seq<Entry>) {
    && h <= h'
    && (forall i :: |h| <= i < |h'| ==> h'[i].command == Finalize)
    && (h' != h ==> HasJoint(h))
  }

  lemma GrownTrans(a: seq<Entry>, b: seq<Entry>, c: seq<Entry>)
    requires Grown(a, b) && Grown(b, c)
    ensures Grown(a, c)
  {
    if b != c {
      var i :| 0 <= i < |b| && b[i].command.Joint?;
      assert i < |a| && a[i].command.Joint?;
    }
  }

  ghost predicate Ready<S(!new)>(app: Machine<S>, c0: Config, h: seq<Entry>) {
    Lawful(app) && SafeConfig(c0) && SafeLog(h) && !IsJoint(c0)
  }

  lemma {:induction false} JointNeedsEntry(c: Config, h: seq<Entry>)
    requires !IsJoint(c) && IsJoint(FoldConfig(c, h))
    ensures HasJoint(h)
  {
    var n := |h| - 1;
    if !h[n].command.Joint? {
      JointNeedsEntry(c, h[..n]);
      var i :| 0 <= i < n && h[..n][i].command.Joint?;
      assert h[i].command.Joint?;
    } else {
      assert h[n].command.Joint?;
    }
  }

  lemma {:induction false} ApplyNextCoherent<S(!new)>(env: Env<S>, c0: Config, n: Node<S>, h: seq<Entry>)
    returns (h': seq<Entry>)
    requires Ready(env.app, c0, h) && Coherent(env.app, c0, CoreOf(n), h) && n.applied < n.commit
    ensures Ready(env.app, c0, h') && Grown(h, h') && Coherent(env.app, c0, CoreOf(ApplyNext(env, n)), h')
    ensures n.role != Leader ==>
              h' == h && ApplyNext(env, n).role != Leader && ApplyNext(env, n).commit == n.commit
    decreases Joints(n), 1, 0
  {
    hide Coherent, Fold, FoldConfig, Reconfigure, MaybeAutoFinalize, SafeLog, SafeConfig, Compacted, JointsAfter;
    var x := CoreOf(n);
    StepCore(env.app, c0, x, h);
    var e := h[n.applied];
    var m := n.(applied := n.applied + 1);
    h' := h;
    if e.command.IsMembership() {
      ReconfigureCore(env, m, e);
      ReconfigureRole(env, m, e.command);
      var y := CoreOf(m).(config := ConfigAfter(m.config, e));
      CompactedCoherent(env.app, c0, y, h, m.applied);
      if e.command.Joint? {
        JointsAfterNext(n.disk.log, n.applied);
        ReconfigureShrinks(env, m, e.command);
        FollowersNeverFinalize(env, Reconfigure(env, m, e.command));
        h' := AutoFinalizeCoherent(env, c0, Reconfigure(env, m, e.command), h);
      }
    }
  }

  lemma {:induction false} ApplyLoopCoherent<S(!new)>(env: Env<S>, c0: Config, n: Node<S>, h: seq<Entry>)
    returns (h': seq<Entry>)
    requires Ready(env.app, c0, h) && Coherent(env.app, c0, CoreOf(n), h)
    ensures Ready(env.app, c0, h') && Grown(h, h') && Coherent(env.app, c0, CoreOf(ApplyLoop(env, n)), h')
    ensures n.role != Leader ==> h' == h && ApplyLoop(env, n).commit == n.commit
    decreases Joints(n), 2, Lag(n)
  {
    hide Ready, Joints, ApplyNext, FoldConfig, Fold;
    h' := h;
    if n.applied < n.commit {
      var a := ApplyNextCoherent(env, c0, n, h);
      h' := ApplyLoopCoherent(env, c0, ApplyNext(env, n), a);
      GrownTrans(h, a, h');
    }
  }

  lemma {:induction false} ApplyCommittedCoherent<S(!new)>(env: Env<S>, c0: Config, n: Node<S>, h: seq<Entry>)
    returns (h': seq<Entry>)
    requires Ready(env.app, c0, h) && Coherent(env.app, c0, CoreOf(n), h)
    ensures Ready(env.app, c0, h') && Grown(h, h') && Coherent(env.app, c0, CoreOf(ApplyCommitted(env, n)), h')
    ensures n.role != Leader ==> h' == h && ApplyCommitted(env, n).commit == n.commit
    decreases Joints(n), 3, 0
  {
    hide Joints, ApplyLoop, MaybeCompact, FoldConfig, Fold, Compacted, SafeLog, SafeConfig, Grown;
    h' := ApplyLoopCoherent(env, c0, n, h);
    var m := ApplyLoop(env, n);
    CompactShrinks(env, m);
    CompactNodeCore(env, m);
    CompactedCoherent(env.app, c0, CoreOf(m), h', m.epoch);
  }

  lemma {:induction false} AdvanceCoherent<S(!new)>(env: Env<S>, c0: Config, n: Node<S>, h: seq<Entry>)
    returns (h': seq<Entry>)
    requires Ready(env.app, c0, h) && Coherent(env.app, c0, CoreOf(n), h)
    ensures Ready(env.app, c0, h') && Grown(h, h') && Coherent(env.app, c0, CoreOf(AdvanceCommit(env, n)), h')
    decreases Joints(n), 4, 0
  {
    hide Ready, JointsAfter, ApplyCommitted, CommitScan, Coherent;
    var c := CommitScan(n, LastIndex(n.disk.log));
    h' := h;
    ScanStaysInLog(env.app, c0, n, h);
    if c > n.commit {
      HigherCommit(env.app, c0, CoreOf(n), h, c);
      h' := ApplyCommittedCoherent(env, c0, n.(commit := c), h);
    }
  }

  lemma ScanStaysInLog<S>(app: Machine<S>, c0: Config, n: Node<S>, h: seq<Entry>)
    requires Coherent(app, c0, CoreOf(n), h)
    ensures n.applied <= n.commit <= CommitScan(n, LastIndex(n.disk.log)) <= |h|
  {
    hide CommitScan, Fold, FoldConfig, ImageOk;
    ScanBound(n, LastIndex(n.disk.log));
  }

  lemma {:induction false} ScanBound<S>(n: Node<S>, hi: nat)
    requires n.commit <= hi
    ensures n.commit <= CommitScan(n, hi) <= hi
  {
    hide Commits;
    if n.commit < hi && !Commits(n, hi) {
      ScanBound(n, hi - 1);
    }
  }

  lemma {:induction false} ScanFinds<S>(n: Node<S>, hi: nat)
    ensures var c := CommitScan(n, hi); c == n.commit || (n.commit < c <= hi && Commits(n, c))
  {
    hide Commits;
    if hi > n.commit && !Commits(n, hi) {
      ScanFinds(n, hi - 1);
    }
  }

  lemma {:induction false} AutoFinalizeCoherent<S(!new)>(env: Env<S>, c0: Config, n: Node<S>, h: seq<Entry>)
    returns (h': seq<Entry>)
    requires Ready(env.app, c0, h) && Coherent(env.app, c0, CoreOf(n), h)
    ensures Ready(env.app, c0, h') && Grown(h, h') && Coherent(env.app, c0, CoreOf(MaybeAutoFinalize(env, n)), h')
    ensures n.role != Leader ==> h' == h
    decreases Joints(n), 5, 0
  {
    hide AdvanceCommit, Fold, FoldConfig, ImageOk, JointsAfter;
    var e := Entry(n.term, n.me, Finalize);
    h' := h;
    if MaybeAutoFinalize(env, n) != n {
      JointNeedsEntry(c0, h[..n.applied]);
      JointInPrefix(h, n.applied);
      LongerHistory(env.app, c0, CoreOf(n), h, [e]);
      JointsAfterAppend(n.disk.log, n.applied, e);
      h' := AdvanceCoherent(env, c0, AppendOwn(n, Finalize), h + [e]);
      FinalizeGrows(h, e, h');
    }
  }

  lemma JointInPrefix(h: seq<Entry>, k: nat)
    requires k <= |h| && HasJoint(h[..k])
    ensures HasJoint(h)
  {
    var i :| 0 <= i < k && h[..k][i].command.Joint?;
    assert h[i].command.Joint?;
  }

  lemma FinalizeGrows(h: seq<Entry>, e: Entry, h': seq<Entry>)
    requires e.command == Finalize && Grown(h + [e], h') && HasJoint(h)
    ensures Grown(h, h')
  {
    assert (h + [e])[|h|] == e;
  }
}
