/**
 * What is on disk after every durable write of a step.
 *
 * A step may write several times. Whichever write is the last before a crash, the disk holds a log
 * and a snapshot that agree with each other and with everything committed before the step.
 */
module Recovery {
  import opened RaftTypes
  import opened Membership
  import opened LogStore
  import opened Node
  import opened Coherence

  /** The log store stands for `h`: its suffix is there and its snapshot is the fold of the rest. */
  ghost predicate Backed<S(!new)>(env: Env<S>, c0: Config, l: Log, h: seq<Entry>) {
    && Ready(env.app, c0, h) && Represents(l, h)
    && (l.base > 0 ==> ImageOk(env.app, FoldConfig(c0, h[..l.base]), Fold(env.app, h[..l.base]), l.image))
  }

  /** The first `k` entries are the same. */
  ghost predicate Kept(h: seq<Entry>, h': seq<Entry>, k: nat) {
    k <= |h| && k <= |h'| && h'[..k] == h[..k]
  }

  lemma KeptTrans(a: seq<Entry>, b: seq<Entry>, c: seq<Entry>, j: nat, k: nat)
    requires Kept(a, b, j) && Kept(b, c, k) && j <= k
    ensures Kept(a, c, j)
  {
    assert c[..j] == c[..k][..j] && b[..j] == b[..k][..j];
  }

  lemma ExtensionKeeps(h: seq<Entry>, h': seq<Entry>, k: nat)
    requires h <= h' && k <= |h|
    ensures Kept(h, h', k)
  {
  }

  ghost predicate Recoverable<S(!new)>(env: Env<S>, c0: Config, h: seq<Entry>, k: nat, l: Log) {
    exists h' :: Backed(env, c0, l, h') && Kept(h, h', k)
  }

  /** Every write since `trail` left a log to recover from that keeps the first `k` entries of `h`. */
  ghost predicate Logged<S(!new)>(env: Env<S>, c0: Config, h: seq<Entry>, k: nat, trail: seq<Disk>, trail': seq<Disk>) {
    trail <= trail' && forall i :: |trail| <= i < |trail'| ==> Recoverable(env, c0, h, k, trail'[i].log)
  }

  /** Every write since `trail` left the log `l`. */
  ghost predicate Wrote(l: Log, trail: seq<Disk>, trail': seq<Disk>) {
    trail <= trail' && forall i :: |trail| <= i < |trail'| ==> trail'[i].log == l
  }

  lemma WroteIsLogged<S(!new)>(
      env: Env<S>, c0: Config, h: seq<Entry>, h': seq<Entry>, k: nat, l: Log, trail: seq<Disk>, trail': seq<Disk>)
    requires Wrote(l, trail, trail') && Backed(env, c0, l, h') && Kept(h, h', k)
    ensures Logged(env, c0, h, k, trail, trail')
  {
    hide Backed, Kept;
    assert Recoverable(env, c0, h, k, l);
  }

  lemma LoggedTrans<S(!new)>(
      env: Env<S>, c0: Config, h: seq<Entry>, j: nat, h1: seq<Entry>, k: nat, t: seq<Disk>, t1: seq<Disk>, t2: seq<Disk>)
    requires Logged(env, c0, h, j, t, t1) && Kept(h, h1, j) && j <= k && Logged(env, c0, h1, k, t1, t2)
    ensures Logged(env, c0, h, j, t, t2)
  {
    hide Backed, Kept;
    forall i | |t| <= i < |t2| ensures Recoverable(env, c0, h, j, t2[i].log) {
      if i < |t1| {
        assert t2[i] == t1[i];
      } else {
        var h' :| Backed(env, c0, t2[i].log, h') && Kept(h1, h', k);
        KeptTrans(h, h1, h', j, k);
      }
    }
  }

  lemma CoherentBacked<S(!new)>(env: Env<S>, c0: Config, x: Core<S>, h: seq<Entry>)
    requires Ready(env.app, c0, h) && Coherent(env.app, c0, x, h)
    ensures Backed(env, c0, x.log, h)
  {
    hide Ready, ImageOk, Fold, FoldConfig;
  }

  // ---------------------------------------------------------------- re-entrant application

  lemma AdmitWrites<S>(env: Env<S>, n: Node<S>)
    ensures Wrote(Admit(env, n).disk.log, n.trail, Admit(env, n).trail)
  {
    hide InstallSnapshot, Seal, Contains;
  }

  lemma ReconfigureWrites<S>(env: Env<S>, n: Node<S>, command: Command)
    requires command.IsMembership()
    ensures Wrote(Reconfigure(env, n, command).disk.log, n.trail, Reconfigure(env, n, command).trail)
  {
    hide Admit, Wrote, TransitionTo, FinalizeTransition, Contains, IsVoter, Among, AllMembers;
    AdmitWrites(env, AdoptConfig(n, command));
  }

  lemma CompactWrites<S>(env: Env<S>, n: Node<S>)
    ensures Wrote(MaybeCompact(env, n).disk.log, n.trail, MaybeCompact(env, n).trail)
  {
    hide InstallSnapshot, Seal;
  }

  lemma {:induction false} ApplyNextLogged<S(!new)>(env: Env<S>, c0: Config, n: Node<S>, h: seq<Entry>)
    requires Ready(env.app, c0, h) && Coherent(env.app, c0, CoreOf(n), h) && n.applied < n.commit
    ensures Logged(env, c0, h, |h|, n.trail, ApplyNext(env, n).trail)
    decreases Joints(n), 1, 0
  {
    hide Coherent, Fold, FoldConfig, Reconfigure, MaybeAutoFinalize, SafeLog, SafeConfig, Compacted, JointsAfter, Backed,
      Logged, Recoverable, Lawful, IsJoint;
    StepCore(env.app, c0, CoreOf(n), h);
    var e := h[n.applied];
    var m := n.(applied := n.applied + 1);
    if e.command.IsMembership() {
      var r := Reconfigure(env, m, e.command);
      ReconfigureCore(env, m, e);
      CompactedCoherent(env.app, c0, CoreOf(m).(config := ConfigAfter(m.config, e)), h, m.applied);
      CoherentBacked(env, c0, CoreOf(r), h);
      ReconfigureWrites(env, m, e.command);
      WroteIsLogged(env, c0, h, h, |h|, r.disk.log, n.trail, r.trail);
      if e.command.Joint? {
        JointsAfterNext(n.disk.log, n.applied);
        ReconfigureShrinks(env, m, e.command);
        AutoFinalizeLogged(env, c0, r, h);
        LoggedTrans(env, c0, h, |h|, h, |h|, n.trail, r.trail, MaybeAutoFinalize(env, r).trail);
      }
    } else {
      NoWrites(env, c0, h, n.trail);
    }
  }

  lemma NoWrites<S(!new)>(env: Env<S>, c0: Config, h: seq<Entry>, trail: seq<Disk>)
    ensures forall k :: Logged(env, c0, h, k, trail, trail)
  {
  }

  lemma {:induction false} ApplyLoopLogged<S(!new)>(env: Env<S>, c0: Config, n: Node<S>, h: seq<Entry>)
    requires Ready(env.app, c0, h) && Coherent(env.app, c0, CoreOf(n), h)
    ensures Logged(env, c0, h, |h|, n.trail, ApplyLoop(env, n).trail)
    decreases Joints(n), 2, Lag(n)
  {
    hide Ready, Joints, ApplyNext, Coherent, Logged, HasJoint;
    NoWrites(env, c0, h, n.trail);
    if n.applied < n.commit {
      var a := ApplyNextCoherent(env, c0, n, h);
      ApplyNextLogged(env, c0, n, h);
      ApplyLoopLogged(env, c0, ApplyNext(env, n), a);
      ExtensionKeeps(h, a, |h|);
      LoggedTrans(env, c0, h, |h|, a, |a|, n.trail, ApplyNext(env, n).trail, ApplyLoop(env, n).trail);
    }
  }

  lemma {:induction false} ApplyCommittedLogged<S(!new)>(env: Env<S>, c0: Config, n: Node<S>, h: seq<Entry>)
    requires Ready(env.app, c0, h) && Coherent(env.app, c0, CoreOf(n), h)
    ensures Logged(env, c0, h, |h|, n.trail, ApplyCommitted(env, n).trail)
    decreases Joints(n), 3, 0
  {
    hide Ready, Joints, ApplyLoop, MaybeCompact, Coherent, Logged, HasJoint, Compacted, Backed, Wrote;
    var a := ApplyLoopCoherent(env, c0, n, h);
    ApplyLoopLogged(env, c0, n, h);
    ExtensionKeeps(h, a, |h|);
    var m := ApplyLoop(env, n);
    var r := MaybeCompact(env, m);
    CompactShrinks(env, m);
    AppliedAll(env, c0, n, h);
    CompactNodeCore(env, m);
    CompactedReady(env.app, c0, CoreOf(m), a, m.epoch);
    CoherentBacked(env, c0, CoreOf(r), a);
    CompactWrites(env, m);
    WroteIsLogged(env, c0, a, a, |a|, r.disk.log, m.trail, r.trail);
    LoggedTrans(env, c0, h, |h|, a, |a|, n.trail, m.trail, r.trail);
  }

  lemma AppliedAll<S(!new)>(env: Env<S>, c0: Config, n: Node<S>, h: seq<Entry>)
    requires Coherent(env.app, c0, CoreOf(n), h)
    ensures ApplyLoop(env, n).applied == ApplyLoop(env, n).commit
  {
    hide ApplyLoop, Fold, FoldConfig, ImageOk;
  }

  lemma CompactedReady<S(!new)>(app: Machine<S>, c0: Config, x: Core<S>, h: seq<Entry>, epoch: nat)
    requires Ready(app, c0, h) && Coherent(app, c0, x, h)
    ensures Coherent(app, c0, Compacted(app, x, epoch), h)
  {
    hide Coherent, Compacted;
    CompactedCoherent(app, c0, x, h, epoch);
  }

  lemma {:induction false} AdvanceLogged<S(!new)>(env: Env<S>, c0: Config, n: Node<S>, h: seq<Entry>)
    requires Ready(env.app, c0, h) && Coherent(env.app, c0, CoreOf(n), h)
    ensures Logged(env, c0, h, |h|, n.trail, AdvanceCommit(env, n).trail)
    decreases Joints(n), 4, 0
  {
    hide Ready, JointsAfter, ApplyCommitted, CommitScan, Coherent, Logged;
    var c := CommitScan(n, LastIndex(n.disk.log));
    NoWrites(env, c0, h, n.trail);
    ScanStaysInLog(env.app, c0, n, h);
    if c > n.commit {
      HigherCommit(env.app, c0, CoreOf(n), h, c);
      ApplyCommittedLogged(env, c0, n.(commit := c), h);
    }
  }

  /** An entry of its own is one write, and the log is longer by it. */
  lemma AppendOwnLogged<S(!new)>(env: Env<S>, c0: Config, n: Node<S>, h: seq<Entry>, command: Command)
    requires Ready(env.app, c0, h) && Coherent(env.app, c0, CoreOf(n), h) && SafeEntry(Entry(n.term, n.me, command))
    ensures var h' := h + [Entry(n.term, n.me, command)];
            Ready(env.app, c0, h') && Coherent(env.app, c0, CoreOf(AppendOwn(n, command)), h')
    ensures Logged(env, c0, h, |h|, n.trail, AppendOwn(n, command).trail)
  {
    hide Coherent, SafeEntry, Lawful, SafeConfig, IsJoint, Backed, Logged;
    var e := Entry(n.term, n.me, command);
    LongerHistory(env.app, c0, CoreOf(n), h, [e]);
    assert SafeLog(h + [e]);
    var r := AppendOwn(n, command);
    CoherentBacked(env, c0, CoreOf(r), h + [e]);
    ExtensionKeeps(h, h + [e], |h|);
    WroteIsLogged(env, c0, h, h + [e], |h|, r.disk.log, n.trail, r.trail);
  }

  lemma {:induction false} AutoFinalizeLogged<S(!new)>(env: Env<S>, c0: Config, n: Node<S>, h: seq<Entry>)
    requires Ready(env.app, c0, h) && Coherent(env.app, c0, CoreOf(n), h)
    ensures Logged(env, c0, h, |h|, n.trail, MaybeAutoFinalize(env, n).trail)
    decreases Joints(n), 5, 0
  {
    hide AdvanceCommit, AppendOwn, Coherent, Ready, JointsAfter, Logged, IsJoint, Matched;
    NoWrites(env, c0, h, n.trail);
    if MaybeAutoFinalize(env, n) != n {
      var m := AppendOwn(n, Finalize);
      var a := h + [Entry(n.term, n.me, Finalize)];
      AppendOwnLogged(env, c0, n, h, Finalize);
      AppendOwnJoints(n);
      AdvanceLogged(env, c0, m, a);
      ExtensionKeeps(h, a, |h|);
      LoggedTrans(env, c0, h, |h|, a, |a|, n.trail, m.trail, AdvanceCommit(env, m).trail);
    }
  }
}
