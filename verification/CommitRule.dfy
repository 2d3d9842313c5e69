/** When a leader commits: section 6 of the Raft paper, read off the log. */
module CommitRule {
  import opened RaftTypes
  import opened Membership
  import opened LogStore
  import opened Node
  import opened Coherence

  // ---------------------------------------------------------------- the rule, over whole logs

  ghost predicate FinalizeAt(h: seq<Entry>, k: nat) {
    0 < k <= |h| && h[k - 1].command == Finalize
  }

  /** `who` may commit `k`: a quorum at `k`, and before every Finalize that is committed on the way. */
  ghost predicate Allows(c0: Config, h: seq<Entry>, term: nat, commit: nat, k: nat, who: set<Id>) {
    && 0 < k <= |h| && h[k - 1].term == term
    && HasJointMajority(FoldConfig(c0, h[..k]), who)
    && forall j: nat :: commit < j <= k && FinalizeAt(h, j) ==> HasJointMajority(FoldConfig(c0, h[..j - 1]), who)
  }

  function Holders<S>(c0: Config, n: Node<S>, h: seq<Entry>, k: nat): set<Id>
    requires k <= |h|
  {
    Replicated(n, FoldConfig(c0, h[..k]), k)
  }

  lemma FinalizeAgrees(l: Log, h: seq<Entry>, k: nat)
    requires Represents(l, h) && l.base < k <= |h|
    ensures IsFinalizeAt(l, k) <==> FinalizeAt(h, k)
  {
    QueriesAgree(l, h);
  }

  /** The node's test is the rule, for a log of which only a suffix is stored. */
  lemma CommitsIffAllowed<S>(app: Machine<S>, c0: Config, n: Node<S>, h: seq<Entry>, k: nat)
    requires Coherent(app, c0, CoreOf(n), h) && n.commit < k <= |h|
    ensures Commits(n, k) <==> Allows(c0, h, n.term, n.commit, k, Holders(c0, n, h, k))
  {
    hide Fold, FoldConfig, ImageOk, HasJointMajority, ConfigurationAt, Replicated, IsFinalizeAt, Represents, Coherent;
    CoherentBounds(app, c0, CoreOf(n), h);
    QueriesAgree(n.disk.log, h);
    ConfigurationIsFold(app, c0, n, h, k);
    forall j: nat | n.commit < j <= k
      ensures ConfigurationAt(n, j - 1) == FoldConfig(c0, h[..j - 1]) && (IsFinalizeAt(n.disk.log, j) <==> FinalizeAt(h, j))
    {
      ConfigurationIsFold(app, c0, n, h, j - 1);
      FinalizeAgrees(n.disk.log, h, j);
    }
  }

  lemma CoherentBounds<S>(app: Machine<S>, c0: Config, x: Core<S>, h: seq<Entry>)
    requires Coherent(app, c0, x, h)
    ensures Represents(x.log, h) && x.log.base <= x.applied <= x.commit <= |h|
  {
    hide Fold, FoldConfig, ImageOk, Represents;
  }

  lemma {:induction false} ScanIsLargest<S>(n: Node<S>, hi: nat, k: nat)
    requires n.commit < k <= hi && Commits(n, k)
    ensures k <= CommitScan(n, hi)
    decreases hi
  {
    hide Commits;
    if !Commits(n, hi) {
      ScanIsLargest(n, hi - 1, k);
    }
  }

  /** `advance_commit_index` goes to the largest index that the rule allows, and nowhere else. */
  lemma AdvancesToLargest<S>(app: Machine<S>, c0: Config, n: Node<S>, h: seq<Entry>, c: nat)
    requires Coherent(app, c0, CoreOf(n), h) && n.commit < c <= |h|
    ensures CommitScan(n, LastIndex(n.disk.log)) == c <==>
              && Allows(c0, h, n.term, n.commit, c, Holders(c0, n, h, c))
              && forall k: nat :: c < k <= |h| ==> !Allows(c0, h, n.term, n.commit, k, Holders(c0, n, h, k))
  {
    hide Commits, CommitScan, Allows, Holders, Coherent, Represents;
    CoherentBounds(app, c0, CoreOf(n), h);
    QueriesAgree(n.disk.log, h);
    var s := CommitScan(n, |h|);
    ScanFinds(n, |h|);
    CommitsIffAllowed(app, c0, n, h, c);
    forall k: nat | c < k <= |h|
      ensures Commits(n, k) <==> Allows(c0, h, n.term, n.commit, k, Holders(c0, n, h, k))
    {
      CommitsIffAllowed(app, c0, n, h, k);
    }
    forall k: nat | n.commit < k <= |h| && Commits(n, k) ensures k <= s {
      ScanIsLargest(n, |h|, k);
    }
  }

  /** It stays exactly when the rule allows nothing new. */
  lemma StaysIffNothingAllowed<S>(app: Machine<S>, c0: Config, n: Node<S>, h: seq<Entry>)
    requires Coherent(app, c0, CoreOf(n), h)
    ensures CommitScan(n, LastIndex(n.disk.log)) == n.commit <==>
              forall k: nat :: n.commit < k <= |h| ==> !Allows(c0, h, n.term, n.commit, k, Holders(c0, n, h, k))
  {
    hide Commits, CommitScan, Allows, Holders, Coherent, Represents;
    CoherentBounds(app, c0, CoreOf(n), h);
    QueriesAgree(n.disk.log, h);
    ScanFinds(n, |h|);
    forall k: nat | n.commit < k <= |h|
      ensures Commits(n, k) <==> Allows(c0, h, n.term, n.commit, k, Holders(c0, n, h, k))
      ensures Commits(n, k) ==> k <= CommitScan(n, |h|)
    {
      CommitsIffAllowed(app, c0, n, h, k);
      if Commits(n, k) {
        ScanIsLargest(n, |h|, k);
      }
    }
  }

  // ---------------------------------------------------------------- quorums along the log

  /** Each entry moves the configuration by one edge: stay, propose or finalize. */
  lemma EntryIsEdge(c: Config, e: Entry)
    ensures Edge(c, ConfigAfter(c, e))
  {
    if e.command.Joint? {
      ProposalIsJoint(e.command.members);
    }
  }

  lemma ProposalIsJoint(members: Proposal)
    ensures FromPeers(members) != map[]
  {
    var last := members[|members| - 1];
    assert last.id in FromPeers(members);
  }

  /** Quorums of neighbouring positions of a log share a voter of both configurations. */
  lemma NeighboursShareVoter(c0: Config, h: seq<Entry>, k: nat, p: set<Id>, q: set<Id>) returns (x: Id)
    requires k < |h| && HasJointMajority(FoldConfig(c0, h[..k]), p) && HasJointMajority(FoldConfig(c0, h[..k + 1]), q)
    ensures x in p && x in q && IsVoter(FoldConfig(c0, h[..k]), x) && IsVoter(FoldConfig(c0, h[..k + 1]), x)
  {
    hide HasJointMajority, IsVoter;
    assert h[..k + 1][..k] == h[..k];
    EntryIsEdge(FoldConfig(c0, h[..k]), h[k]);
    x := QuorumsShareVoter(FoldConfig(c0, h[..k]), FoldConfig(c0, h[..k + 1]), p, q);
  }

  /**
   * A commit that passes an uncommitted Finalize still meets every quorum of the old half and of the
   * new half of the joint configuration before it.
   */
  lemma FinalizeMeetsBothHalves(c0: Config, h: seq<Entry>, term: nat, commit: nat, k: nat, who: set<Id>, j: nat, q: set<Id>)
    returns (x: Id)
    requires Allows(c0, h, term, commit, k, who) && commit < j <= k && FinalizeAt(h, j)
    requires var c := FoldConfig(c0, h[..j - 1]); HasMajority(c.current, q) || (IsJoint(c) && HasMajority(c.next, q))
    ensures x in who && x in q && IsVoter(FoldConfig(c0, h[..j - 1]), x)
  {
    var c := FoldConfig(c0, h[..j - 1]);
    assert HasJointMajority(c, who);
    if HasMajority(c.current, q) {
      x := MajoritiesShare(c.current, who, q);
    } else {
      x := MajoritiesShare(c.next, who, q);
    }
  }
}
