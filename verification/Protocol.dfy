/**
 * Raft over whole logs, with a fixed voter set.
 *
 * A tenure records, for each term that ever elected a leader, that leader and
 * the log it held while leading. Ballots, grants, acknowledgements and offers
 * are grow-only: nothing forces a replica to receive one, and any replica may
 * receive one twice or late.
 */
module Protocol {
  import opened Basics
  import opened RaftTypes

  datatype Replica = Replica(term: nat, vote: Option<Id>, role: Role, log: seq<Entry>, commit: nat)

  datatype Tenure = Tenure(leader: Id, log: seq<Entry>)

  datatype Ballot = Ballot(term: nat, candidate: Id, lastIndex: nat, lastTerm: nat)

  /** A vote, with the voter's log at the moment it voted. */
  datatype Grant = Grant(voter: Id, term: nat, candidate: Id, log: seq<Entry>)

  /** In `term`, `replica` held the first `index` entries of that term's leader. */
  datatype Ack = Ack(replica: Id, term: nat, index: nat)

  /** Everything a leader of `term` vouches for in one message: a prefix of its log. */
  datatype Offer = Offer(term: nat, log: seq<Entry>, commit: nat)

  datatype System = System(
    voters: set<Id>,
    replicas: map<Id, Replica>,
    tenures: map<nat, Tenure>,
    ballots: set<Ballot>,
    grants: set<Grant>,
    acks: set<Ack>,
    offers: set<Offer>)

  // ---------------------------------------------------------------- quorums

  predicate Majority(voters: set<Id>, q: set<Id>) {
    q <= voters && 2 * |q| > |voters|
  }

  lemma MajoritiesMeet(voters: set<Id>, p: set<Id>, q: set<Id>) returns (x: Id)
    requires Majority(voters, p) && Majority(voters, q)
    ensures x in p && x in q
  {
    if p * q == {} {
      assert |p + q| == |p| + |q|;
      SubsetSize(p + q, voters);
      assert false;
    }
    x :| x in p * q;
  }

  // ---------------------------------------------------------------- vocabulary

  predicate UpToDate(candidate: seq<Entry>, voter: seq<Entry>) {
    LastTerm(candidate) > LastTerm(voter)
    || (LastTerm(candidate) == LastTerm(voter) && |candidate| >= |voter|)
  }

  predicate Bounded(log: seq<Entry>, term: nat) {
    forall i :: 0 <= i < |log| ==> log[i].term <= term
  }

  /** Every prefix of `log` is a prefix of the log of the leader that wrote its last entry. */
  predicate Traced(s: System, log: seq<Entry>) {
    forall i :: 0 <= i < |log| ==>
      && log[i].term in s.tenures
      && log[..i + 1] <= s.tenures[log[i].term].log
  }

  ghost predicate Acked(s: System, v: Id, t: nat, k: nat) {
    exists n :: n >= k && Ack(v, t, n) in s.acks
  }

  /** Position `k` of tenure `t` holds an entry that leader wrote in its own term. */
  predicate Own(s: System, t: nat, k: nat) {
    t in s.tenures && 0 < k <= |s.tenures[t].log| && s.tenures[t].log[k - 1].term == t
  }

  ghost predicate Beyond(s: System, q: set<Id>, t: nat, k: nat) {
    Majority(s.voters, q)
    && forall w :: w in q ==> w in s.replicas && s.replicas[w].term > t && !Acked(s, w, t, k)
  }

  /** A majority has left term `t` without acknowledging `k`: that position can never commit. */
  ghost predicate Dead(s: System, t: nat, k: nat) {
    exists q :: Beyond(s, q, t, k)
  }

  ghost predicate AckedBy(s: System, q: set<Id>, t: nat, k: nat) {
    Majority(s.voters, q) && forall w :: w in q ==> Acked(s, w, t, k)
  }

  ghost predicate Decided(s: System, t: nat, k: nat) {
    Own(s, t, k) && exists q :: AckedBy(s, q, t, k)
  }

  /** `p` is a prefix of something decided in some term up to `bound`. */
  ghost predicate Committed(s: System, p: seq<Entry>, bound: nat) {
    p == [] || exists t: nat, k: nat :: t <= bound && Decided(s, t, k) && p <= s.tenures[t].log[..k]
  }

  ghost predicate Kept(s: System, a: Ack, log: seq<Entry>) {
    forall k: nat :: k <= a.index && Own(s, a.term, k) ==>
      s.tenures[a.term].log[..k] <= log || Dead(s, a.term, k)
  }

  ghost predicate HasGrant(s: System, v: Id, t: nat, c: Id) {
    exists log :: Grant(v, t, c, log) in s.grants
  }

  ghost predicate ElectedBy(s: System, q: set<Id>, t: nat, c: Id) {
    Majority(s.voters, q) && forall v :: v in q ==> HasGrant(s, v, t, c)
  }

  // ---------------------------------------------------------------- the invariant

  ghost predicate ReplicaOk(s: System, r: Replica) {
    && r.commit <= |r.log|
    && Traced(s, r.log)
    && Bounded(r.log, r.term)
    && Committed(s, r.log[..r.commit], r.term)
  }

  ghost predicate ReplicasOk(s: System) {
    forall v :: v in s.replicas ==> ReplicaOk(s, s.replicas[v])
  }

  ghost predicate TenureOk(s: System, t: nat, n: Tenure) {
    && t > 0
    && n.leader in s.replicas
    && s.replicas[n.leader].term >= t
    && Traced(s, n.log)
    && Bounded(n.log, t)
    && exists q :: ElectedBy(s, q, t, n.leader)
  }

  ghost predicate TenuresOk(s: System) {
    forall t :: t in s.tenures ==> TenureOk(s, t, s.tenures[t])
  }

  ghost predicate RoleOk(s: System, v: Id, r: Replica) {
    && (r.role == Leader ==> r.term in s.tenures && s.tenures[r.term] == Tenure(v, r.log))
    && (r.role == Candidate ==> r.term > 0 && !(r.term in s.tenures && s.tenures[r.term].leader == v))
  }

  ghost predicate RolesOk(s: System) {
    forall v :: v in s.replicas ==> RoleOk(s, v, s.replicas[v])
  }

  ghost predicate GrantOk(s: System, g: Grant) {
    && g.voter in s.replicas && g.candidate in s.replicas
    && g.term <= s.replicas[g.voter].term
    && g.term <= s.replicas[g.candidate].term
    && (g.term == s.replicas[g.voter].term ==> s.replicas[g.voter].vote == Some(g.candidate))
    && Traced(s, g.log)
  }

  ghost predicate GrantsOk(s: System) {
    && (forall g :: g in s.grants ==> GrantOk(s, g))
    && (forall g, h :: g in s.grants && h in s.grants && g.voter == h.voter && g.term == h.term ==>
          g.candidate == h.candidate)
  }

  ghost predicate BallotOk(s: System, b: Ballot) {
    && b.candidate in s.replicas
    && var r := s.replicas[b.candidate];
       && b.term <= r.term
       && (r.role == Candidate && r.term == b.term ==>
             b.lastIndex == |r.log| && b.lastTerm == LastTerm(r.log))
  }

  ghost predicate WonFairly(s: System, g: Grant) {
    g.candidate in s.replicas
    && var r := s.replicas[g.candidate];
       r.role == Candidate && r.term == g.term ==> UpToDate(r.log, g.log)
  }

  ghost predicate CandidatesOk(s: System) {
    && (forall b :: b in s.ballots ==> BallotOk(s, b))
    && (forall g :: g in s.grants ==> WonFairly(s, g))
  }

  ghost predicate AckOk(s: System, a: Ack) {
    && a.replica in s.replicas && a.term in s.tenures
    && a.term <= s.replicas[a.replica].term
    && a.index <= |s.tenures[a.term].log|
  }

  ghost predicate AcksOk(s: System) {
    forall a :: a in s.acks ==> AckOk(s, a)
  }

  ghost predicate AcksKept(s: System) {
    forall a :: a in s.acks && a.replica in s.replicas ==> Kept(s, a, s.replicas[a.replica].log)
  }

  ghost predicate GrantsKept(s: System) {
    forall g, a :: g in s.grants && a in s.acks && a.replica == g.voter && a.term < g.term ==>
      Kept(s, a, g.log)
  }

  /** Leader completeness, in a form that is preserved before anything commits. */
  ghost predicate Complete(s: System) {
    forall t, u, k: nat :: t < u && u in s.tenures && Own(s, t, k) ==>
      s.tenures[t].log[..k] <= s.tenures[u].log || Dead(s, t, k)
  }

  ghost predicate OfferOk(s: System, m: Offer) {
    && m.term in s.tenures
    && m.log <= s.tenures[m.term].log
    && Committed(s, m.log[..Min(m.commit, |m.log|)], m.term)
  }

  ghost predicate OffersOk(s: System) {
    forall m :: m in s.offers ==> OfferOk(s, m)
  }

  ghost predicate Inv(s: System) {
    && ReplicasOk(s) && TenuresOk(s) && RolesOk(s) && GrantsOk(s) && CandidatesOk(s)
    && AcksOk(s) && AcksKept(s) && GrantsKept(s) && Complete(s) && OffersOk(s)
  }

  /** Everything a later state of the same run preserves of an earlier one. */
  ghost predicate Later(s: System, s': System) {
    && s'.voters == s.voters
    && s'.replicas.Keys == s.replicas.Keys
    && (forall v :: v in s.replicas ==> s.replicas[v].term <= s'.replicas[v].term)
    && (forall t :: t in s.tenures ==>
          t in s'.tenures && s'.tenures[t].leader == s.tenures[t].leader
          && s.tenures[t].log <= s'.tenures[t].log)
    && s.ballots <= s'.ballots && s.grants <= s'.grants && s.acks <= s'.acks && s.offers <= s'.offers
    && (forall a :: a in s'.acks && a !in s.acks && a.replica in s.replicas ==>
          s.replicas[a.replica].term <= a.term)
  }

  lemma LaterTrans(a: System, b: System, c: System)
    requires Later(a, b) && Later(b, c)
    ensures Later(a, c)
  {
  }

  // ---------------------------------------------------------------- what persists

  lemma AckedPersists(s: System, s': System, v: Id, t: nat, k: nat)
    requires Later(s, s') && Acked(s, v, t, k)
    ensures Acked(s', v, t, k)
  {
  }

  lemma DeadPersists(s: System, s': System, t: nat, k: nat)
    requires Later(s, s') && Dead(s, t, k)
    ensures Dead(s', t, k)
  {
    var q :| Beyond(s, q, t, k);
    assert Beyond(s', q, t, k);
  }

  lemma DecidedPersists(s: System, s': System, t: nat, k: nat)
    requires Later(s, s') && Decided(s, t, k)
    ensures Decided(s', t, k) && s'.tenures[t].log[..k] == s.tenures[t].log[..k]
  {
    var q :| AckedBy(s, q, t, k);
    forall w | w in q ensures Acked(s', w, t, k) {
      AckedPersists(s, s', w, t, k);
    }
    assert AckedBy(s', q, t, k);
  }

  lemma CommittedPersists(s: System, s': System, p: seq<Entry>, bound: nat, bound': nat)
    requires Later(s, s') && bound <= bound' && Committed(s, p, bound)
    ensures Committed(s', p, bound')
  {
    if p != [] {
      var t: nat, k: nat :| t <= bound && Decided(s, t, k) && p <= s.tenures[t].log[..k];
      DecidedPersists(s, s', t, k);
    }
  }

  lemma CommittedPrefix(s: System, p: seq<Entry>, q: seq<Entry>, bound: nat)
    requires Committed(s, q, bound) && p <= q
    ensures Committed(s, p, bound)
  {
    if p != [] {
      var t: nat, k: nat :| t <= bound && Decided(s, t, k) && q <= s.tenures[t].log[..k];
      assert p <= s.tenures[t].log[..k];
    }
  }

  lemma TracedPersists(s: System, s': System, log: seq<Entry>)
    requires Later(s, s') && Traced(s, log)
    ensures Traced(s', log)
  {
  }

  /** A position past the old end of a tenure is unacknowledged, so a later election kills it. */
  lemma KeptPersists(s: System, s': System, a: Ack, log: seq<Entry>)
    requires Later(s, s') && AcksOk(s) && a in s.acks && Kept(s, a, log)
    ensures Kept(s', a, log)
  {
    forall k: nat | k <= a.index && Own(s', a.term, k)
      ensures s'.tenures[a.term].log[..k] <= log || Dead(s', a.term, k)
    {
      assert Own(s, a.term, k);
      assert s'.tenures[a.term].log[..k] == s.tenures[a.term].log[..k];
      if Dead(s, a.term, k) {
        DeadPersists(s, s', a.term, k);
      }
    }
  }

  lemma ElectedPersists(s: System, s': System, q: set<Id>, t: nat, c: Id)
    requires Later(s, s') && ElectedBy(s, q, t, c)
    ensures ElectedBy(s', q, t, c)
  {
    forall v | v in q ensures HasGrant(s', v, t, c) {
      var log :| Grant(v, t, c, log) in s.grants;
      assert Grant(v, t, c, log) in s'.grants;
    }
  }

  // ---------------------------------------------------------------- leader completeness

  lemma DecidedNotDead(s: System, t: nat, k: nat)
    requires Decided(s, t, k)
    ensures !Dead(s, t, k)
  {
    if Dead(s, t, k) {
      var q :| Beyond(s, q, t, k);
      var p :| AckedBy(s, p, t, k);
      var w := MajoritiesMeet(s.voters, p, q);
      assert false;
    }
  }

  /** Section 5.4 of the Raft paper: what is decided is in every later leader's log. */
  lemma LeaderCompleteness(s: System, t: nat, k: nat, u: nat)
    requires Complete(s) && Decided(s, t, k) && t <= u && u in s.tenures
    ensures s.tenures[t].log[..k] <= s.tenures[u].log
  {
    DecidedNotDead(s, t, k);
  }

  lemma CommittedInTenure(s: System, p: seq<Entry>, bound: nat, u: nat)
    requires Complete(s) && Committed(s, p, bound) && bound <= u && u in s.tenures
    ensures p <= s.tenures[u].log
  {
    if p != [] {
      var t: nat, k: nat :| t <= bound && Decided(s, t, k) && p <= s.tenures[t].log[..k];
      LeaderCompleteness(s, t, k, u);
    }
  }

  /** Any two committed prefixes are prefixes of one log. */
  lemma CommittedCompare(s: System, p: seq<Entry>, pb: nat, q: seq<Entry>, qb: nat)
    requires Complete(s) && Committed(s, p, pb) && Committed(s, q, qb) && |p| <= |q|
    ensures p <= q
  {
    if p != [] {
      var t: nat, k: nat :| t <= pb && Decided(s, t, k) && p <= s.tenures[t].log[..k];
      var u: nat, l: nat :| u <= qb && Decided(s, u, l) && q <= s.tenures[u].log[..l];
      if t <= u {
        LeaderCompleteness(s, t, k, u);
        PrefixesCompare(p, q, s.tenures[u].log);
      } else {
        LeaderCompleteness(s, u, l, t);
        PrefixesCompare(p, q, s.tenures[t].log);
      }
    }
  }

  /** Log matching: equal terms at one index mean equal logs up to it. */
  lemma LogMatching(s: System, a: seq<Entry>, b: seq<Entry>, k: nat)
    requires Traced(s, a) && Traced(s, b)
    requires k <= |a| && k <= |b| && TermOf(a, k) == TermOf(b, k)
    ensures a[..k] == b[..k]
  {
    if k > 0 {
      assert a[..k - 1 + 1] <= s.tenures[a[k - 1].term].log;
      assert b[..k - 1 + 1] <= s.tenures[b[k - 1].term].log;
    }
  }

  /** A commit index that points at an entry of term `t` was decided by that term's leader. */
  lemma CommitOfOwnTerm(s: System, log: seq<Entry>, commit: nat, t: nat) returns (k: nat)
    requires TenuresOk(s) && 0 < commit <= |log| && log[commit - 1].term == t
    requires Committed(s, log[..commit], t)
    ensures k >= commit && Decided(s, t, k) && log[..commit] <= s.tenures[t].log[..k]
  {
    var u: nat, n: nat :| u <= t && Decided(s, u, n) && log[..commit] <= s.tenures[u].log[..n];
    assert TenureOk(s, u, s.tenures[u]);
    assert log[..commit][commit - 1] == s.tenures[u].log[commit - 1];
    k := n;
  }

  /**
   * Section 8 of the Raft paper, by log fence. At `s` the leader of term `t` has not yet written
   * position `fence`; at `s'` a position from `fence` on is decided in that term. Everything that
   * any replica had committed at `s`, in any term, lies before the fence in that leader's log.
   */
  lemma FenceCoversCommitted(s: System, s': System, t: nat, fence: nat, k: nat, p: seq<Entry>, bound: nat)
    requires AcksOk(s) && Complete(s) && Later(s, s')
    requires t in s.tenures && |s.tenures[t].log| < fence <= k && Decided(s', t, k)
    requires Committed(s, p, bound)
    ensures |p| < fence && p <= s'.tenures[t].log
  {
    if p != [] {
      var u: nat, n: nat :| u <= bound && Decided(s, u, n) && p <= s.tenures[u].log[..n];
      OpenTermIsNewest(s, s', t, fence, k, u, n);
      LeaderCompleteness(s, u, n, t);
    }
  }

  /** A term that still decides something new is at least as late as every term that had decided. */
  lemma OpenTermIsNewest(s: System, s': System, t: nat, fence: nat, k: nat, u: nat, n: nat)
    requires AcksOk(s) && Later(s, s') && Decided(s, u, n)
    requires t in s.tenures && |s.tenures[t].log| < fence <= k && Decided(s', t, k)
    ensures u <= t
  {
    var p :| AckedBy(s, p, u, n);
    var q :| AckedBy(s', q, t, k);
    var x := MajoritiesMeet(s.voters, p, q);
    var a: nat :| a >= n && Ack(x, u, a) in s.acks;
    assert AckOk(s, Ack(x, u, a));
    var b: nat :| b >= k && Ack(x, t, b) in s'.acks;
    assert Ack(x, t, b) in s.acks ==> AckOk(s, Ack(x, t, b));
  }
}
