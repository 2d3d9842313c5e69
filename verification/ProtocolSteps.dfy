/** The steps of the protocol, and that each of them keeps its invariant. */
module ProtocolSteps {
  import opened Basics
  import opened RaftTypes
  import opened Protocol

  // ---------------------------------------------------------------- the steps

  function StartElection(s: System, c: Id): System
    requires c in s.replicas
  {
    var r := s.replicas[c];
    var t := r.term + 1;
    s.(replicas := s.replicas[c := Replica(t, Some(c), Candidate, r.log, r.commit)],
       ballots := s.ballots + {Ballot(t, c, |r.log|, LastTerm(r.log))},
       grants := s.grants + {Grant(c, t, c, r.log)})
  }

  /** A later term is durable; whatever vote is stored with it was never sent in that term. */
  function RaiseTerm(s: System, v: Id, t: nat, vote: Option<Id>): System
    requires v in s.replicas
  {
    var r := s.replicas[v];
    s.(replicas := s.replicas[v := Replica(t, vote, Follower, r.log, r.commit)])
  }

  /** Stepping down within a term, or restarting with a commit index learned again. */
  function Rest(s: System, v: Id, commit: nat): System
    requires v in s.replicas
  {
    s.(replicas := s.replicas[v := s.replicas[v].(role := Follower, commit := commit)])
  }

  function CastVote(s: System, v: Id, b: Ballot): System
    requires v in s.replicas
  {
    var r := s.replicas[v];
    s.(replicas := s.replicas[v := r.(vote := Some(b.candidate))],
       grants := s.grants + {Grant(v, b.term, b.candidate, r.log)})
  }

  function Elect(s: System, c: Id): System
    requires c in s.replicas
  {
    var r := s.replicas[c];
    s.(replicas := s.replicas[c := r.(role := Leader)], tenures := s.tenures[r.term := Tenure(c, r.log)])
  }

  function Append(s: System, l: Id, e: Entry): System
    requires l in s.replicas
  {
    var r := s.replicas[l];
    var log := r.log + [e];
    s.(replicas := s.replicas[l := r.(log := log)],
       tenures := s.tenures[r.term := Tenure(l, log)],
       acks := s.acks + {Ack(l, r.term, |log|)})
  }

  function MakeOffer(s: System, l: Id, n: nat, commit: nat): System
    requires l in s.replicas && n <= |s.replicas[l].log|
  {
    s.(offers := s.offers + {Offer(s.replicas[l].term, s.replicas[l].log[..n], commit)})
  }

  /** Keep the local log if it already holds the offered prefix; otherwise take the offer. */
  function Adopted(log: seq<Entry>, offered: seq<Entry>): seq<Entry> {
    if offered <= log then log else offered
  }

  function Accept(s: System, v: Id, m: Offer): System
    requires v in s.replicas
  {
    var r := s.replicas[v];
    s.(replicas := s.replicas[v := r.(role := Follower, log := Adopted(r.log, m.log))],
       acks := s.acks + {Ack(v, m.term, |m.log|)})
  }

  /** Acknowledge a committed prefix without looking at it again. */
  function AckCommitted(s: System, v: Id, n: nat): System
    requires v in s.replicas
  {
    s.(acks := s.acks + {Ack(v, s.replicas[v].term, n)})
  }

  function SetCommit(s: System, v: Id, commit: nat): System
    requires v in s.replicas
  {
    s.(replicas := s.replicas[v := s.replicas[v].(commit := commit)])
  }

  /** A crash after a conflicting suffix is gone and before its replacement is written. */
  function Cut(s: System, v: Id, j: nat): System
    requires v in s.replicas && j <= |s.replicas[v].log|
  {
    var r := s.replicas[v];
    s.(replicas := s.replicas[v := r.(role := Follower, log := r.log[..j])])
  }

  // ---------------------------------------------------------------- framing

  lemma TenurePersists(s: System, s': System, t: nat, n: Tenure)
    requires Later(s, s') && TenureOk(s, t, n)
    ensures TenureOk(s', t, n)
  {
    TracedPersists(s, s', n.log);
    var q :| ElectedBy(s, q, t, n.leader);
    ElectedPersists(s, s', q, t, n.leader);
  }

  lemma TenuresPersist(s: System, s': System)
    requires Later(s, s') && TenuresOk(s) && s'.tenures == s.tenures
    ensures TenuresOk(s')
  {
    forall t | t in s'.tenures ensures TenureOk(s', t, s'.tenures[t]) {
      TenurePersists(s, s', t, s.tenures[t]);
    }
  }

  lemma OffersPersist(s: System, s': System)
    requires Later(s, s') && OffersOk(s) && s'.offers == s.offers
    ensures OffersOk(s')
  {
    forall m | m in s'.offers ensures OfferOk(s', m) {
      assert OfferOk(s, m);
      CommittedPersists(s, s', m.log[..Min(m.commit, |m.log|)], m.term, m.term);
    }
  }

  lemma CompletePersists(s: System, s': System)
    requires Later(s, s') && Complete(s) && s'.tenures == s.tenures
    ensures Complete(s')
  {
    forall t, u, k: nat | t < u && u in s'.tenures && Own(s', t, k)
      ensures s'.tenures[t].log[..k] <= s'.tenures[u].log || Dead(s', t, k)
    {
      assert Own(s, t, k);
      if Dead(s, t, k) {
        DeadPersists(s, s', t, k);
      }
    }
  }

  /** No tenure and no offer moved. */
  lemma Settled(s: System, s': System)
    requires Later(s, s') && s'.tenures == s.tenures && s'.offers == s.offers
    requires TenuresOk(s) && Complete(s) && OffersOk(s)
    ensures TenuresOk(s') && Complete(s') && OffersOk(s')
  {
    TenuresPersist(s, s');
    CompletePersists(s, s');
    OffersPersist(s, s');
  }

  /** A replica whose log is unchanged, whose commit did not grow and whose term did not shrink. */
  lemma ReplicaPersists(s: System, s': System, r: Replica, r': Replica)
    requires Later(s, s') && ReplicaOk(s, r)
    requires r'.log == r.log && r'.commit <= r.commit && r.term <= r'.term
    ensures ReplicaOk(s', r')
  {
    TracedPersists(s, s', r.log);
    CommittedPrefix(s, r.log[..r'.commit], r.log[..r.commit], r.term);
    CommittedPersists(s, s', r.log[..r'.commit], r.term, r'.term);
  }

  ghost predicate SameLog(r: Replica, r': Replica) {
    r'.log == r.log && r'.commit <= r.commit && r.term <= r'.term
  }

  /** Only roles, terms, votes, ballots and grants moved. */
  ghost predicate Quiet(s: System, s': System) {
    && Later(s, s')
    && s'.tenures == s.tenures && s'.acks == s.acks && s'.offers == s.offers
    && forall v :: v in s.replicas ==> SameLog(s.replicas[v], s'.replicas[v])
  }

  lemma QuietReplicas(s: System, s': System)
    requires Quiet(s, s') && ReplicasOk(s)
    ensures ReplicasOk(s')
  {
    forall v | v in s'.replicas ensures ReplicaOk(s', s'.replicas[v]) {
      assert SameLog(s.replicas[v], s'.replicas[v]);
      ReplicaPersists(s, s', s.replicas[v], s'.replicas[v]);
    }
  }

  lemma QuietAcks(s: System, s': System)
    requires Quiet(s, s') && AcksOk(s) && AcksKept(s)
    ensures AcksOk(s') && AcksKept(s')
  {
    forall a | a in s'.acks ensures AckOk(s', a) && Kept(s', a, s'.replicas[a.replica].log) {
      assert AckOk(s, a);
      assert SameLog(s.replicas[a.replica], s'.replicas[a.replica]);
      KeptPersists(s, s', a, s.replicas[a.replica].log);
    }
  }

  lemma QuietStep(s: System, s': System)
    requires Quiet(s, s') && Inv(s)
    ensures ReplicasOk(s') && TenuresOk(s') && AcksOk(s') && AcksKept(s') && Complete(s') && OffersOk(s')
  {
    QuietReplicas(s, s');
    QuietAcks(s, s');
    Settled(s, s');
  }

  lemma GrantPersists(s: System, s': System, g: Grant)
    requires Later(s, s') && GrantOk(s, g)
    requires s'.replicas[g.voter].term == g.term ==> s'.replicas[g.voter].vote == Some(g.candidate)
    ensures GrantOk(s', g)
  {
    TracedPersists(s, s', g.log);
  }

  lemma GrantsKeptPersist(s: System, s': System)
    requires Later(s, s') && AcksOk(s) && GrantsKept(s)
    requires s'.grants == s.grants && s'.acks == s.acks
    ensures GrantsKept(s')
  {
    forall g, a | g in s'.grants && a in s'.acks && a.replica == g.voter && a.term < g.term
      ensures Kept(s', a, g.log)
    {
      KeptPersists(s, s', a, g.log);
    }
  }

  // ---------------------------------------------------------------- elections

  lemma StartElectionKeeps(s: System, c: Id)
    requires Inv(s) && c in s.replicas
    ensures Inv(StartElection(s, c)) && Later(s, StartElection(s, c))
  {
    var s' := StartElection(s, c);
    StartElectionQuiet(s, c);
    QuietStep(s, s');
    StartElectionRoles(s, c);
    StartElectionGrants(s, c);
    StartElectionKept(s, c);
  }

  lemma StartElectionQuiet(s: System, c: Id)
    requires c in s.replicas
    ensures Quiet(s, StartElection(s, c))
  {
  }

  lemma StartElectionRoles(s: System, c: Id)
    requires RolesOk(s) && TenuresOk(s) && c in s.replicas
    ensures RolesOk(StartElection(s, c))
  {
    var s' := StartElection(s, c);
    var t := s.replicas[c].term + 1;
    assert t in s.tenures ==> TenureOk(s, t, s.tenures[t]);
    forall v | v in s'.replicas ensures RoleOk(s', v, s'.replicas[v]) {
      assert RoleOk(s, v, s.replicas[v]);
    }
  }

  lemma StartElectionGrants(s: System, c: Id)
    requires GrantsOk(s) && CandidatesOk(s) && ReplicasOk(s) && c in s.replicas
    requires Later(s, StartElection(s, c))
    ensures GrantsOk(StartElection(s, c)) && CandidatesOk(StartElection(s, c))
  {
    var s' := StartElection(s, c);
    assert ReplicaOk(s, s.replicas[c]);
    forall g | g in s'.grants ensures GrantOk(s', g) && WonFairly(s', g) {
      if g in s.grants {
        assert GrantOk(s, g) && WonFairly(s, g);
        GrantPersists(s, s', g);
      } else {
        TracedPersists(s, s', g.log);
      }
    }
    forall b | b in s'.ballots ensures BallotOk(s', b) {
      if b in s.ballots {
        assert BallotOk(s, b);
      }
    }
    forall g, h | g in s'.grants && h in s'.grants && g.voter == h.voter && g.term == h.term
      ensures g.candidate == h.candidate
    {
      assert g in s.grants ==> GrantOk(s, g);
      assert h in s.grants ==> GrantOk(s, h);
    }
  }

  lemma StartElectionKept(s: System, c: Id)
    requires AcksOk(s) && AcksKept(s) && GrantsKept(s) && c in s.replicas
    requires Later(s, StartElection(s, c))
    ensures GrantsKept(StartElection(s, c))
  {
    var s' := StartElection(s, c);
    forall g, a | g in s'.grants && a in s'.acks && a.replica == g.voter && a.term < g.term
      ensures Kept(s', a, g.log)
    {
      KeptPersists(s, s', a, g.log);
    }
  }

  lemma RaiseTermQuiet(s: System, v: Id, t: nat, vote: Option<Id>)
    requires v in s.replicas && s.replicas[v].term < t
    ensures Quiet(s, RaiseTerm(s, v, t, vote))
  {
  }

  lemma RaiseTermKeeps(s: System, v: Id, t: nat, vote: Option<Id>)
    requires Inv(s) && v in s.replicas && s.replicas[v].term < t
    ensures Inv(RaiseTerm(s, v, t, vote)) && Later(s, RaiseTerm(s, v, t, vote))
  {
    var s' := RaiseTerm(s, v, t, vote);
    RaiseTermQuiet(s, v, t, vote);
    QuietStep(s, s');
    GrantsKeptPersist(s, s');
    StandingKept(s, s', v);
  }

  lemma RestQuiet(s: System, v: Id, commit: nat)
    requires v in s.replicas && commit <= s.replicas[v].commit
    ensures Quiet(s, Rest(s, v, commit))
  {
  }

  lemma RestKeeps(s: System, v: Id, commit: nat)
    requires Inv(s) && v in s.replicas && commit <= s.replicas[v].commit
    ensures Inv(Rest(s, v, commit)) && Later(s, Rest(s, v, commit))
  {
    var s' := Rest(s, v, commit);
    RestQuiet(s, v, commit);
    QuietStep(s, s');
    GrantsKeptPersist(s, s');
    StandingKept(s, s', v);
  }

  /** Replica `v` becomes a follower, keeping its vote unless its term grew. */
  lemma StandingKept(s: System, s': System, v: Id)
    requires Later(s, s') && RolesOk(s) && GrantsOk(s) && CandidatesOk(s) && v in s.replicas
    requires s'.tenures == s.tenures && s'.grants == s.grants && s'.ballots == s.ballots
    requires s'.replicas[v].role == Follower
    requires s'.replicas[v].term == s.replicas[v].term ==> s'.replicas[v].vote == s.replicas[v].vote
    requires forall w :: w in s.replicas && w != v ==> s'.replicas[w] == s.replicas[w]
    ensures RolesOk(s') && GrantsOk(s') && CandidatesOk(s')
  {
    forall w | w in s'.replicas ensures RoleOk(s', w, s'.replicas[w]) {
      assert RoleOk(s, w, s.replicas[w]);
    }
    forall g | g in s'.grants ensures GrantOk(s', g) && WonFairly(s', g) {
      assert GrantOk(s, g) && WonFairly(s, g);
      GrantPersists(s, s', g);
    }
    forall b | b in s'.ballots ensures BallotOk(s', b) {
      assert BallotOk(s, b);
    }
  }

  predicate MayVote(r: Replica, b: Ballot) {
    && b.term == r.term
    && (r.vote == None || r.vote == Some(b.candidate))
    && (b.lastTerm > LastTerm(r.log) || (b.lastTerm == LastTerm(r.log) && b.lastIndex >= |r.log|))
  }

  lemma CastVoteKeeps(s: System, v: Id, b: Ballot)
    requires Inv(s) && v in s.replicas && b in s.ballots && MayVote(s.replicas[v], b)
    ensures Inv(CastVote(s, v, b)) && Later(s, CastVote(s, v, b))
  {
    var s' := CastVote(s, v, b);
    CastVoteQuiet(s, v, b);
    QuietStep(s, s');
    CastVoteGrants(s, v, b);
    CastVoteBallots(s, v, b);
    CastVoteKept(s, v, b);
  }

  lemma CastVoteQuiet(s: System, v: Id, b: Ballot)
    requires v in s.replicas
    ensures Quiet(s, CastVote(s, v, b))
  {
  }

  lemma CastVoteKept(s: System, v: Id, b: Ballot)
    requires RolesOk(s) && AcksOk(s) && AcksKept(s) && GrantsKept(s) && v in s.replicas
    requires Later(s, CastVote(s, v, b))
    ensures RolesOk(CastVote(s, v, b)) && GrantsKept(CastVote(s, v, b))
  {
    var s' := CastVote(s, v, b);
    forall w | w in s'.replicas ensures RoleOk(s', w, s'.replicas[w]) {
      assert RoleOk(s, w, s.replicas[w]);
    }
    forall g, a | g in s'.grants && a in s'.acks && a.replica == g.voter && a.term < g.term
      ensures Kept(s', a, g.log)
    {
      KeptPersists(s, s', a, g.log);
    }
  }

  lemma CastVoteGrants(s: System, v: Id, b: Ballot)
    requires GrantsOk(s) && CandidatesOk(s) && ReplicasOk(s)
    requires v in s.replicas && b in s.ballots && MayVote(s.replicas[v], b)
    requires Later(s, CastVote(s, v, b))
    ensures GrantsOk(CastVote(s, v, b))
  {
    var s' := CastVote(s, v, b);
    assert ReplicaOk(s, s.replicas[v]) && BallotOk(s, b);
    forall g | g in s'.grants ensures GrantOk(s', g) {
      if g in s.grants {
        assert GrantOk(s, g);
        GrantPersists(s, s', g);
      } else {
        TracedPersists(s, s', g.log);
      }
    }
    forall g, h | g in s'.grants && h in s'.grants && g.voter == h.voter && g.term == h.term
      ensures g.candidate == h.candidate
    {
      assert g in s.grants ==> GrantOk(s, g);
      assert h in s.grants ==> GrantOk(s, h);
    }
  }

  lemma CastVoteBallots(s: System, v: Id, b: Ballot)
    requires CandidatesOk(s)
    requires v in s.replicas && b in s.ballots && MayVote(s.replicas[v], b)
    ensures CandidatesOk(CastVote(s, v, b))
  {
    var s' := CastVote(s, v, b);
    assert BallotOk(s, b);
    forall g | g in s'.grants ensures WonFairly(s', g) {
      assert g in s.grants ==> WonFairly(s, g);
    }
    forall c | c in s'.ballots ensures BallotOk(s', c) {
      assert BallotOk(s, c);
    }
  }

  // ---------------------------------------------------------------- winning an election

  /** Two majorities in one term elected one candidate. */
  lemma OneWinner(s: System, q: set<Id>, t: nat, c: Id)
    requires GrantsOk(s) && TenuresOk(s) && ElectedBy(s, q, t, c) && t in s.tenures
    ensures s.tenures[t].leader == c
  {
    assert TenureOk(s, t, s.tenures[t]);
    var p :| ElectedBy(s, p, t, s.tenures[t].leader);
    var x := MajoritiesMeet(s.voters, p, q);
    var g :| Grant(x, t, s.tenures[t].leader, g) in s.grants;
    var h :| Grant(x, t, c, h) in s.grants;
  }

  ghost predicate Wins(s: System, q: set<Id>, c: Id) {
    c in s.replicas && s.replicas[c].role == Candidate
    && ElectedBy(s, q, s.replicas[c].term, c)
  }

  lemma WinnerIsFresh(s: System, q: set<Id>, c: Id)
    requires GrantsOk(s) && TenuresOk(s) && RolesOk(s) && Wins(s, q, c)
    ensures s.replicas[c].term !in s.tenures
  {
    assert RoleOk(s, c, s.replicas[c]);
    if s.replicas[c].term in s.tenures {
      OneWinner(s, q, s.replicas[c].term, c);
      assert false;
    }
  }

  /** A voter that kept position `k` of an earlier tenure hands it to the candidate it found up to date. */
  lemma VoterPassesOn(s: System, c: Id, g: Grant, t: nat, k: nat)
    requires Complete(s) && TenuresOk(s) && RolesOk(s) && c in s.replicas
    requires var r := s.replicas[c]; Traced(s, r.log) && Traced(s, g.log) && UpToDate(r.log, g.log)
    requires Own(s, t, k) && s.tenures[t].log[..k] <= g.log
    ensures s.tenures[t].log[..k] <= s.replicas[c].log || Dead(s, t, k)
  {
    var log := s.replicas[c].log;
    assert g.log[k - 1] == s.tenures[t].log[k - 1];
    var w := LastTerm(g.log);
    assert g.log == g.log[..|g.log| - 1 + 1];
    assert g.log <= s.tenures[w].log;
    assert TenureOk(s, w, s.tenures[w]);
    assert t <= w;
    var u := LastTerm(log);
    assert w > 0 && log != [];
    assert log == log[..|log| - 1 + 1];
    assert log <= s.tenures[u].log;
    if u == w {
      PrefixesCompare(g.log, log, s.tenures[u].log);
    } else {
      assert t < u;
      assert TenureOk(s, t, s.tenures[t]);
      assert log[|log| - 1].term == u;
    }
  }

  /** The heart of leader completeness: a winner holds every position that can still commit. */
  lemma WinnerComplete(s: System, q: set<Id>, c: Id, t: nat, k: nat)
    requires Inv(s) && Wins(s, q, c) && t < s.replicas[c].term && Own(s, t, k)
    ensures s.tenures[t].log[..k] <= s.replicas[c].log || Dead(s, t, k)
  {
    var u := s.replicas[c].term;
    if v :| v in q && Acked(s, v, t, k) {
      var n: nat :| n >= k && Ack(v, t, n) in s.acks;
      var glog :| Grant(v, u, c, glog) in s.grants;
      PassedOn(s, c, Grant(v, u, c, glog), Ack(v, t, n), k);
    } else {
      VotersMovedOn(s, q, c, t, k);
    }
  }

  lemma PassedOn(s: System, c: Id, g: Grant, a: Ack, k: nat)
    requires Inv(s) && c in s.replicas && s.replicas[c].role == Candidate
    requires g in s.grants && g.candidate == c && g.term == s.replicas[c].term
    requires a in s.acks && a.replica == g.voter && a.term < g.term && k <= a.index && Own(s, a.term, k)
    ensures s.tenures[a.term].log[..k] <= s.replicas[c].log || Dead(s, a.term, k)
  {
    assert Kept(s, a, g.log) && GrantOk(s, g) && WonFairly(s, g) && ReplicaOk(s, s.replicas[c]);
    if !Dead(s, a.term, k) {
      VoterPassesOn(s, c, g, a.term, k);
    }
  }

  lemma VotersMovedOn(s: System, q: set<Id>, c: Id, t: nat, k: nat)
    requires GrantsOk(s) && Wins(s, q, c) && t < s.replicas[c].term
    requires forall v :: v in q ==> !Acked(s, v, t, k)
    ensures Dead(s, t, k)
  {
    forall w | w in q ensures w in s.replicas && s.replicas[w].term > t && !Acked(s, w, t, k) {
      var g :| Grant(w, s.replicas[c].term, c, g) in s.grants;
      assert GrantOk(s, Grant(w, s.replicas[c].term, c, g));
    }
    assert Beyond(s, q, t, k);
  }

  lemma ElectKeeps(s: System, q: set<Id>, c: Id)
    requires Inv(s) && Wins(s, q, c)
    ensures Inv(Elect(s, c)) && Later(s, Elect(s, c))
  {
    var s' := Elect(s, c);
    WinnerIsFresh(s, q, c);
    ElectLater(s, c);
    ElectReplicas(s, c);
    ElectTenures(s, q, c);
    ElectRoles(s, c);
    ElectAcks(s, c);
    ElectComplete(s, q, c);
    OffersPersist(s, s');
    GrantsKeptPersist(s, s');
  }

  lemma ElectLater(s: System, c: Id)
    requires c in s.replicas && s.replicas[c].term !in s.tenures
    ensures Later(s, Elect(s, c))
  {
  }

  lemma ElectReplicas(s: System, c: Id)
    requires c in s.replicas && Later(s, Elect(s, c)) && ReplicasOk(s)
    ensures ReplicasOk(Elect(s, c))
  {
    var s' := Elect(s, c);
    forall v | v in s'.replicas ensures ReplicaOk(s', s'.replicas[v]) {
      ReplicaPersists(s, s', s.replicas[v], s'.replicas[v]);
    }
  }

  lemma ElectTenures(s: System, q: set<Id>, c: Id)
    requires Wins(s, q, c) && Later(s, Elect(s, c)) && ReplicasOk(s) && TenuresOk(s) && RolesOk(s)
    requires s.replicas[c].term !in s.tenures
    ensures TenuresOk(Elect(s, c))
  {
    var s' := Elect(s, c);
    var r := s.replicas[c];
    assert RoleOk(s, c, r);
    forall t | t in s'.tenures ensures TenureOk(s', t, s'.tenures[t]) {
      if t == r.term {
        assert ReplicaOk(s, r);
        TracedPersists(s, s', r.log);
        ElectedPersists(s, s', q, t, c);
      } else {
        TenurePersists(s, s', t, s.tenures[t]);
      }
    }
  }

  lemma ElectRoles(s: System, c: Id)
    requires c in s.replicas && Later(s, Elect(s, c)) && RolesOk(s) && GrantsOk(s) && CandidatesOk(s)
    requires s.replicas[c].role == Candidate && s.replicas[c].term !in s.tenures
    ensures RolesOk(Elect(s, c)) && GrantsOk(Elect(s, c)) && CandidatesOk(Elect(s, c))
  {
    var s' := Elect(s, c);
    forall w | w in s'.replicas ensures RoleOk(s', w, s'.replicas[w]) {
      assert RoleOk(s, w, s.replicas[w]);
    }
    forall g | g in s'.grants ensures GrantOk(s', g) && WonFairly(s', g) {
      assert GrantOk(s, g) && WonFairly(s, g);
      GrantPersists(s, s', g);
    }
    forall b | b in s'.ballots ensures BallotOk(s', b) {
      assert BallotOk(s, b);
    }
  }

  lemma ElectAcks(s: System, c: Id)
    requires c in s.replicas && Later(s, Elect(s, c)) && AcksOk(s) && AcksKept(s)
    requires s.replicas[c].term !in s.tenures
    ensures AcksOk(Elect(s, c)) && AcksKept(Elect(s, c))
  {
    var s' := Elect(s, c);
    forall a | a in s'.acks ensures AckOk(s', a) && Kept(s', a, s'.replicas[a.replica].log) {
      assert AckOk(s, a);
      KeptPersists(s, s', a, s.replicas[a.replica].log);
    }
  }

  lemma ElectComplete(s: System, q: set<Id>, c: Id)
    requires Inv(s) && Wins(s, q, c) && Later(s, Elect(s, c)) && s.replicas[c].term !in s.tenures
    ensures Complete(Elect(s, c))
  {
    var s' := Elect(s, c);
    var r := s.replicas[c];
    forall t, u, k: nat | t < u && u in s'.tenures && Own(s', t, k)
      ensures s'.tenures[t].log[..k] <= s'.tenures[u].log || Dead(s', t, k)
    {
      ElectCompleteAt(s, q, c, t, u, k);
    }
  }

  lemma ElectCompleteAt(s: System, q: set<Id>, c: Id, t: nat, u: nat, k: nat)
    requires Inv(s) && Wins(s, q, c) && Later(s, Elect(s, c)) && s.replicas[c].term !in s.tenures
    requires t < u && u in Elect(s, c).tenures && Own(Elect(s, c), t, k)
    ensures var s' := Elect(s, c); s'.tenures[t].log[..k] <= s'.tenures[u].log || Dead(s', t, k)
  {
    var s' := Elect(s, c);
    var r := s.replicas[c];
    assert ReplicaOk(s, r);
    assert t != r.term;
    assert Own(s, t, k);
    if u == r.term {
      WinnerComplete(s, q, c, t, k);
    }
    if Dead(s, t, k) {
      DeadPersists(s, s', t, k);
    }
  }

  // ---------------------------------------------------------------- replication

  lemma AppendKeeps(s: System, l: Id, e: Entry)
    requires Inv(s) && l in s.replicas && s.replicas[l].role == Leader && e.term == s.replicas[l].term
    ensures Inv(Append(s, l, e)) && Later(s, Append(s, l, e))
  {
    var s' := Append(s, l, e);
    assert RoleOk(s, l, s.replicas[l]);
    AppendLater(s, l, e);
    AppendReplicas(s, l, e);
    AppendTenures(s, l, e);
    AppendRoles(s, l, e);
    AppendAcks(s, l, e);
    AppendGrantsKept(s, l, e);
    AppendComplete(s, l, e);
    OffersPersist(s, s');
  }

  /** `l` leads and is about to write `e` in its own term. */
  ghost predicate Leads(s: System, l: Id, e: Entry) {
    && l in s.replicas && e.term == s.replicas[l].term && s.replicas[l].role == Leader
    && s.replicas[l].term in s.tenures
    && s.tenures[s.replicas[l].term] == Tenure(l, s.replicas[l].log)
  }

  lemma AppendLater(s: System, l: Id, e: Entry)
    requires Leads(s, l, e)
    ensures Later(s, Append(s, l, e))
  {
  }

  /** The leader's longer log is traced in the longer tenure. */
  lemma AppendTraced(s: System, l: Id, e: Entry)
    requires Leads(s, l, e) && Traced(s, s.replicas[l].log)
    ensures Traced(Append(s, l, e), s.replicas[l].log + [e])
  {
    var s' := Append(s, l, e);
    var log := s.replicas[l].log;
    var log' := log + [e];
    AppendLater(s, l, e);
    forall i | 0 <= i < |log'|
      ensures log'[i].term in s'.tenures && log'[..i + 1] <= s'.tenures[log'[i].term].log
    {
      if i < |log| {
        assert log'[..i + 1] == log[..i + 1];
        assert log[..i + 1] <= s.tenures[log[i].term].log;
      }
    }
  }

  lemma AppendReplicas(s: System, l: Id, e: Entry)
    requires Leads(s, l, e) && ReplicasOk(s)
    ensures ReplicasOk(Append(s, l, e))
  {
    var s' := Append(s, l, e);
    AppendLater(s, l, e);
    forall v | v in s'.replicas ensures ReplicaOk(s', s'.replicas[v]) {
      hide ReplicaOk;
      assert ReplicaOk(s, s.replicas[v]);
      ReplicaPersists(s, s', s.replicas[v], s.replicas[v]);
      if v == l {
        AppendReplica(s, l, e);
      }
    }
  }

  lemma AppendReplica(s: System, l: Id, e: Entry)
    requires Leads(s, l, e) && ReplicaOk(s, s.replicas[l]) && ReplicaOk(Append(s, l, e), s.replicas[l])
    ensures ReplicaOk(Append(s, l, e), Append(s, l, e).replicas[l])
  {
    hide Committed, Traced;
    var r := s.replicas[l];
    AppendTraced(s, l, e);
    assert (r.log + [e])[..r.commit] == r.log[..r.commit];
  }

  lemma AppendTenures(s: System, l: Id, e: Entry)
    requires Leads(s, l, e) && TenuresOk(s)
    ensures TenuresOk(Append(s, l, e))
  {
    var s' := Append(s, l, e);
    AppendLater(s, l, e);
    forall t | t in s'.tenures ensures TenureOk(s', t, s'.tenures[t]) {
      TenurePersists(s, s', t, s.tenures[t]);
      if t == e.term {
        assert TenureOk(s, t, s.tenures[t]);
        AppendTraced(s, l, e);
      }
    }
  }

  lemma AppendRoles(s: System, l: Id, e: Entry)
    requires Leads(s, l, e) && RolesOk(s) && GrantsOk(s) && CandidatesOk(s)
    ensures RolesOk(Append(s, l, e)) && GrantsOk(Append(s, l, e)) && CandidatesOk(Append(s, l, e))
  {
    var s' := Append(s, l, e);
    AppendLater(s, l, e);
    forall w | w in s'.replicas ensures RoleOk(s', w, s'.replicas[w]) {
      assert RoleOk(s, w, s.replicas[w]);
    }
    forall g | g in s'.grants ensures GrantOk(s', g) && WonFairly(s', g) {
      assert GrantOk(s, g) && WonFairly(s, g);
      GrantPersists(s, s', g);
    }
    forall b | b in s'.ballots ensures BallotOk(s', b) {
      assert BallotOk(s, b);
    }
  }

  lemma AppendAcks(s: System, l: Id, e: Entry)
    requires Leads(s, l, e) && AcksOk(s) && AcksKept(s)
    ensures AcksOk(Append(s, l, e)) && AcksKept(Append(s, l, e))
  {
    var s' := Append(s, l, e);
    AppendLater(s, l, e);
    forall a | a in s'.acks ensures AckOk(s', a) && Kept(s', a, s'.replicas[a.replica].log) {
      if a in s.acks {
        assert AckOk(s, a);
        KeptPersists(s, s', a, s.replicas[a.replica].log);
        KeptLonger(s', a, s.replicas[a.replica].log, s'.replicas[a.replica].log);
      }
    }
  }

  lemma KeptLonger(s: System, a: Ack, log: seq<Entry>, log': seq<Entry>)
    requires Kept(s, a, log) && log <= log'
    ensures Kept(s, a, log')
  {
    forall k: nat | k <= a.index && Own(s, a.term, k)
      ensures s.tenures[a.term].log[..k] <= log' || Dead(s, a.term, k)
    {
    }
  }

  lemma AppendGrantsKept(s: System, l: Id, e: Entry)
    requires Leads(s, l, e) && AcksOk(s) && GrantsKept(s) && GrantsOk(s)
    ensures GrantsKept(Append(s, l, e))
  {
    var s' := Append(s, l, e);
    AppendLater(s, l, e);
    forall g, a | g in s'.grants && a in s'.acks && a.replica == g.voter && a.term < g.term
      ensures Kept(s', a, g.log)
    {
      assert GrantOk(s, g);
      assert a in s.acks;
      KeptPersists(s, s', a, g.log);
    }
  }

  /** A majority that elected term `u` has left every earlier term. */
  lemma UnackedDies(s: System, t: nat, u: nat, k: nat)
    requires TenuresOk(s) && GrantsOk(s) && t < u && u in s.tenures
    requires forall a :: a in s.acks && a.term == t && a.index >= k ==>
               a.replica in s.replicas && s.replicas[a.replica].term == t
    ensures Dead(s, t, k)
  {
    assert TenureOk(s, u, s.tenures[u]);
    var q :| ElectedBy(s, q, u, s.tenures[u].leader);
    forall w | w in q ensures w in s.replicas && s.replicas[w].term > t && !Acked(s, w, t, k) {
      var g :| Grant(w, u, s.tenures[u].leader, g) in s.grants;
      assert GrantOk(s, Grant(w, u, s.tenures[u].leader, g));
    }
    assert Beyond(s, q, t, k);
  }

  lemma AppendComplete(s: System, l: Id, e: Entry)
    requires Leads(s, l, e) && Complete(s) && AcksOk(s)
    requires TenuresOk(Append(s, l, e)) && GrantsOk(Append(s, l, e))
    ensures Complete(Append(s, l, e))
  {
    var s' := Append(s, l, e);
    forall t, u, k: nat | t < u && u in s'.tenures && Own(s', t, k)
      ensures s'.tenures[t].log[..k] <= s'.tenures[u].log || Dead(s', t, k)
    {
      AppendCompleteAt(s, l, e, t, u, k);
    }
  }

  lemma AppendCompleteAt(s: System, l: Id, e: Entry, t: nat, u: nat, k: nat)
    requires Leads(s, l, e) && Complete(s) && AcksOk(s)
    requires TenuresOk(Append(s, l, e)) && GrantsOk(Append(s, l, e))
    requires t < u && u in Append(s, l, e).tenures && Own(Append(s, l, e), t, k)
    ensures var s' := Append(s, l, e); s'.tenures[t].log[..k] <= s'.tenures[u].log || Dead(s', t, k)
  {
    hide TenuresOk, GrantsOk, AcksOk, Dead;
    var s' := Append(s, l, e);
    if Own(s, t, k) {
      AppendLater(s, l, e);
      OldPositionKept(s, s', t, u, k);
    } else {
      AppendedDies(s, l, e, u);
    }
  }

  lemma OldPositionKept(s: System, s': System, t: nat, u: nat, k: nat)
    requires Later(s, s') && Complete(s) && Own(s, t, k) && t < u && u in s.tenures
    ensures s'.tenures[t].log[..k] <= s'.tenures[u].log || Dead(s', t, k)
  {
    hide Dead;
    assert s'.tenures[t].log[..k] == s.tenures[t].log[..k];
    if Dead(s, t, k) {
      DeadPersists(s, s', t, k);
    } else {
      assert s.tenures[t].log[..k] <= s.tenures[u].log;
      assert s.tenures[u].log <= s'.tenures[u].log;
    }
  }

  /** An entry written by a leader that a later term has replaced. */
  lemma AppendedDies(s: System, l: Id, e: Entry, u: nat)
    requires Leads(s, l, e) && AcksOk(s)
    requires TenuresOk(Append(s, l, e)) && GrantsOk(Append(s, l, e))
    requires e.term < u && u in Append(s, l, e).tenures
    ensures Dead(Append(s, l, e), e.term, |s.replicas[l].log| + 1)
  {
    var s' := Append(s, l, e);
    forall a | a in s'.acks && a.term == e.term && a.index >= |s.replicas[l].log| + 1
      ensures a.replica in s'.replicas && s'.replicas[a.replica].term == e.term
    {
      assert a in s.acks ==> AckOk(s, a);
    }
    UnackedDies(s', e.term, u, |s.replicas[l].log| + 1);
  }

  lemma MakeOfferKeeps(s: System, l: Id, n: nat, commit: nat)
    requires Inv(s) && l in s.replicas && s.replicas[l].role == Leader
    requires n <= |s.replicas[l].log| && commit <= s.replicas[l].commit
    ensures Inv(MakeOffer(s, l, n, commit)) && Later(s, MakeOffer(s, l, n, commit))
  {
    var s' := MakeOffer(s, l, n, commit);
    var r := s.replicas[l];
    assert RoleOk(s, l, r) && ReplicaOk(s, r);
    var m := Offer(r.term, r.log[..n], commit);
    var c := Min(m.commit, |m.log|);
    assert m.log[..c] <= r.log[..r.commit];
    CommittedPrefix(s, m.log[..c], r.log[..r.commit], r.term);
    OfferAdded(s, m);
  }

  lemma OfferAdded(s: System, m: Offer)
    requires Inv(s) && OfferOk(s, m)
    ensures var s' := s.(offers := s.offers + {m}); Inv(s') && Later(s, s')
  {
    var s' := s.(offers := s.offers + {m});
    OfferQuiet(s, s', m);
    OfferGrants(s, s');
    OfferOffers(s, s', m);
  }

  lemma OfferOffers(s: System, s': System, m: Offer)
    requires s' == s.(offers := s.offers + {m}) && Later(s, s') && OffersOk(s) && OfferOk(s, m)
    ensures OffersOk(s')
  {
    forall x | x in s'.offers ensures OfferOk(s', x) {
      assert x == m || OfferOk(s, x);
      CommittedPersists(s, s', x.log[..Min(x.commit, |x.log|)], x.term, x.term);
    }
  }

  lemma OfferQuiet(s: System, s': System, m: Offer)
    requires s' == s.(offers := s.offers + {m})
    requires ReplicasOk(s) && TenuresOk(s) && AcksOk(s) && AcksKept(s) && Complete(s)
    ensures Later(s, s')
    ensures ReplicasOk(s') && TenuresOk(s') && AcksOk(s') && AcksKept(s') && Complete(s')
  {
    forall v | v in s'.replicas ensures ReplicaOk(s', s'.replicas[v]) {
      ReplicaPersists(s, s', s.replicas[v], s'.replicas[v]);
    }
    TenuresPersist(s, s');
    forall a | a in s'.acks ensures AckOk(s', a) && Kept(s', a, s'.replicas[a.replica].log) {
      assert AckOk(s, a);
      KeptPersists(s, s', a, s.replicas[a.replica].log);
    }
    CompletePersists(s, s');
  }

  /** Elections do not look at offers, acknowledgements or commit indices. */
  lemma OfferGrants(s: System, s': System)
    requires Later(s, s') && AcksOk(s)
    requires s'.replicas == s.replicas && s'.tenures == s.tenures && s'.grants == s.grants
    requires s'.ballots == s.ballots && s'.acks == s.acks
    requires RolesOk(s) && GrantsOk(s) && CandidatesOk(s) && GrantsKept(s)
    ensures RolesOk(s') && GrantsOk(s') && CandidatesOk(s') && GrantsKept(s')
  {
    GrantsKeptPersist(s, s');
    StandingSame(s, s');
  }

  /** Nobody's term, vote, role or log moved. */
  ghost predicate SameStanding(s: System, s': System) {
    && s'.tenures == s.tenures && s'.grants == s.grants && s'.ballots == s.ballots
    && forall v :: v in s.replicas && v in s'.replicas ==> SameOffice(s.replicas[v], s'.replicas[v])
  }

  predicate SameOffice(r: Replica, r': Replica) {
    r'.term == r.term && r'.vote == r.vote && r'.role == r.role && r'.log == r.log
  }

  lemma StandingSame(s: System, s': System)
    requires Later(s, s') && RolesOk(s) && GrantsOk(s) && CandidatesOk(s) && SameStanding(s, s')
    ensures RolesOk(s') && GrantsOk(s') && CandidatesOk(s')
  {
    forall w | w in s'.replicas ensures RoleOk(s', w, s'.replicas[w]) {
      assert RoleOk(s, w, s.replicas[w]);
      assert SameOffice(s.replicas[w], s'.replicas[w]);
    }
    forall g | g in s'.grants ensures GrantOk(s', g) && WonFairly(s', g) {
      assert GrantOk(s, g) && WonFairly(s, g);
      assert SameOffice(s.replicas[g.voter], s'.replicas[g.voter]);
      assert SameOffice(s.replicas[g.candidate], s'.replicas[g.candidate]);
      GrantPersists(s, s', g);
    }
    forall b | b in s'.ballots ensures BallotOk(s', b) {
      assert BallotOk(s, b);
      assert SameOffice(s.replicas[b.candidate], s'.replicas[b.candidate]);
    }
  }

  // ---------------------------------------------------------------- accepting an offer

  /** What a replica holds of a tenure survives adopting an offer of that tenure. */
  lemma AdoptedKeepsPrefix(log: seq<Entry>, offered: seq<Entry>, tenure: seq<Entry>, p: seq<Entry>)
    requires offered <= tenure && p <= tenure && p <= log
    ensures p <= Adopted(log, offered)
  {
    if !(offered <= log) && |offered| < |p| {
      PrefixesCompare(offered, p, tenure);
      assert false;
    }
  }

  ghost predicate Receives(s: System, v: Id, m: Offer) {
    v in s.replicas && m in s.offers && OfferOk(s, m) && m.term == s.replicas[v].term
  }

  lemma AcceptKeeps(s: System, v: Id, m: Offer)
    requires Inv(s) && v in s.replicas && m in s.offers && m.term == s.replicas[v].term
    ensures Inv(Accept(s, v, m)) && Later(s, Accept(s, v, m))
    ensures m.log <= Accept(s, v, m).replicas[v].log
  {
    var s' := Accept(s, v, m);
    assert Receives(s, v, m);
    AcceptLater(s, v, m);
    AcceptReplicas(s, v, m);
    StandingKept(s, s', v);
    AcceptAcks(s, v, m);
    AcceptGrantsKept(s, v, m);
    Settled(s, s');
  }

  lemma AcceptLater(s: System, v: Id, m: Offer)
    requires Receives(s, v, m)
    ensures Later(s, Accept(s, v, m))
  {
  }

  lemma AcceptReplicas(s: System, v: Id, m: Offer)
    requires Receives(s, v, m) && ReplicasOk(s) && TenuresOk(s) && Complete(s)
    ensures ReplicasOk(Accept(s, v, m))
  {
    var s' := Accept(s, v, m);
    AcceptLater(s, v, m);
    forall w | w in s'.replicas ensures ReplicaOk(s', s'.replicas[w]) {
      var r := s.replicas[w];
      ReplicaPersists(s, s', r, r);
      if w == v {
        AcceptReplica(s, s', r, m);
      }
    }
  }

  lemma AcceptReplica(s: System, s': System, r: Replica, m: Offer)
    requires Later(s, s') && ReplicaOk(s, r) && TenuresOk(s) && Complete(s) && OfferOk(s, m)
    requires m.term == r.term
    ensures ReplicaOk(s', r.(role := Follower, log := Adopted(r.log, m.log)))
  {
    var n := s.tenures[m.term];
    assert TenureOk(s, m.term, n);
    var p := r.log[..r.commit];
    CommittedInTenure(s, p, r.term, m.term);
    AdoptedKeepsPrefix(r.log, m.log, n.log, p);
    var log := Adopted(r.log, m.log);
    TracedPrefix(s, m.log, n.log);
    TracedPersists(s, s', log);
    assert log[..r.commit] == p;
    CommittedPersists(s, s', p, r.term, r.term);
  }

  lemma TracedPrefix(s: System, p: seq<Entry>, log: seq<Entry>)
    requires Traced(s, log) && p <= log
    ensures Traced(s, p)
  {
    forall i | 0 <= i < |p| ensures p[i].term in s.tenures && p[..i + 1] <= s.tenures[p[i].term].log {
      assert p[..i + 1] == log[..i + 1];
      assert p[i] == log[i];
    }
  }

  lemma AcceptAcks(s: System, v: Id, m: Offer)
    requires Receives(s, v, m) && AcksOk(s) && AcksKept(s) && Complete(s)
    ensures AcksOk(Accept(s, v, m)) && AcksKept(Accept(s, v, m))
  {
    var s' := Accept(s, v, m);
    AcceptLater(s, v, m);
    forall a | a in s'.acks ensures AckOk(s', a) && Kept(s', a, s'.replicas[a.replica].log) {
      if a in s.acks {
        assert AckOk(s, a);
        if a.replica == v {
          AcceptKept(s, a, s.replicas[v].log, m);
        }
        KeptPersists(s, s', a, s'.replicas[a.replica].log);
      } else {
        FreshAckKept(s', a, s'.replicas[v].log);
      }
    }
  }

  lemma FreshAckKept(s: System, a: Ack, log: seq<Entry>)
    requires a.term in s.tenures && a.index <= |s.tenures[a.term].log|
    requires s.tenures[a.term].log[..a.index] <= log
    ensures Kept(s, a, log)
  {
    forall k: nat | k <= a.index && Own(s, a.term, k)
      ensures s.tenures[a.term].log[..k] <= log || Dead(s, a.term, k)
    {
      assert s.tenures[a.term].log[..k] <= s.tenures[a.term].log[..a.index];
    }
  }

  lemma AcceptKept(s: System, a: Ack, log: seq<Entry>, m: Offer)
    requires Complete(s) && OfferOk(s, m) && Kept(s, a, log) && a.term <= m.term
    ensures Kept(s, a, Adopted(log, m.log))
  {
    forall k: nat | k <= a.index && Own(s, a.term, k)
      ensures s.tenures[a.term].log[..k] <= Adopted(log, m.log) || Dead(s, a.term, k)
    {
      if !Dead(s, a.term, k) {
        AdoptedKeepsPrefix(log, m.log, s.tenures[m.term].log, s.tenures[a.term].log[..k]);
      }
    }
  }

  /** Acknowledgements of the current term say nothing about votes of earlier terms. */
  lemma AcceptGrantsKept(s: System, v: Id, m: Offer)
    requires Receives(s, v, m) && AcksOk(s) && GrantsOk(s) && GrantsKept(s)
    ensures GrantsKept(Accept(s, v, m))
  {
    var s' := Accept(s, v, m);
    AcceptLater(s, v, m);
    forall g, a | g in s'.grants && a in s'.acks && a.replica == g.voter && a.term < g.term
      ensures Kept(s', a, g.log)
    {
      assert GrantOk(s, g);
      assert a in s.acks;
      KeptPersists(s, s', a, g.log);
    }
  }

  lemma AckCommittedKeeps(s: System, v: Id, n: nat)
    requires Inv(s) && v in s.replicas && s.replicas[v].term in s.tenures && n <= s.replicas[v].commit
    ensures Inv(AckCommitted(s, v, n)) && Later(s, AckCommitted(s, v, n))
  {
    var s' := AckCommitted(s, v, n);
    CommittedHeld(s, v, n);
    AckCommittedRest(s, v, n);
    AckCommittedAcks(s, v, n);
    StandingSame(s, s');
    Settled(s, s');
  }

  lemma CommittedHeld(s: System, v: Id, n: nat)
    requires v in s.replicas && ReplicasOk(s) && Complete(s)
    requires s.replicas[v].term in s.tenures && n <= s.replicas[v].commit
    ensures var r := s.replicas[v]; n <= |r.log| && r.log[..n] <= s.tenures[r.term].log
  {
    var r := s.replicas[v];
    assert ReplicaOk(s, r);
    CommittedInTenure(s, r.log[..r.commit], r.term, r.term);
  }

  lemma AckCommittedRest(s: System, v: Id, n: nat)
    requires v in s.replicas && ReplicasOk(s)
    ensures Later(s, AckCommitted(s, v, n)) && SameStanding(s, AckCommitted(s, v, n))
    ensures ReplicasOk(AckCommitted(s, v, n))
  {
    var s' := AckCommitted(s, v, n);
    forall w | w in s'.replicas ensures ReplicaOk(s', s'.replicas[w]) {
      ReplicaPersists(s, s', s.replicas[w], s.replicas[w]);
    }
  }

  lemma AckCommittedAcks(s: System, v: Id, n: nat)
    requires v in s.replicas && Later(s, AckCommitted(s, v, n))
    requires AcksOk(s) && AcksKept(s) && GrantsOk(s) && GrantsKept(s)
    requires var r := s.replicas[v];
             r.term in s.tenures && n <= |r.log| && r.log[..n] <= s.tenures[r.term].log
    ensures AcksOk(AckCommitted(s, v, n)) && AcksKept(AckCommitted(s, v, n))
    ensures GrantsKept(AckCommitted(s, v, n))
  {
    var s' := AckCommitted(s, v, n);
    var r := s.replicas[v];
    forall a | a in s'.acks ensures AckOk(s', a) && Kept(s', a, s'.replicas[a.replica].log) {
      if a in s.acks {
        assert AckOk(s, a);
        KeptPersists(s, s', a, s.replicas[a.replica].log);
      } else {
        assert s.tenures[r.term].log[..n] == r.log[..n];
        FreshAckKept(s', a, r.log);
      }
    }
    forall g, a | g in s'.grants && a in s'.acks && a.replica == g.voter && a.term < g.term
      ensures Kept(s', a, g.log)
    {
      assert GrantOk(s, g);
      assert a in s.acks;
      KeptPersists(s, s', a, g.log);
    }
  }

  // ---------------------------------------------------------------- committing

  lemma SetCommitKeeps(s: System, v: Id, commit: nat)
    requires Inv(s) && v in s.replicas && commit <= |s.replicas[v].log|
    requires Committed(s, s.replicas[v].log[..commit], s.replicas[v].term)
    ensures Inv(SetCommit(s, v, commit)) && Later(s, SetCommit(s, v, commit))
  {
    var s' := SetCommit(s, v, commit);
    SetCommitReplicas(s, v, commit);
    SetCommitAcks(s, s');
    StandingSame(s, s');
    Settled(s, s');
    GrantsKeptPersist(s, s');
  }

  lemma SetCommitReplicas(s: System, v: Id, commit: nat)
    requires v in s.replicas && commit <= |s.replicas[v].log| && ReplicasOk(s)
    requires Committed(s, s.replicas[v].log[..commit], s.replicas[v].term)
    ensures Later(s, SetCommit(s, v, commit)) && SameStanding(s, SetCommit(s, v, commit))
    ensures ReplicasOk(SetCommit(s, v, commit))
  {
    var s' := SetCommit(s, v, commit);
    forall w | w in s'.replicas ensures ReplicaOk(s', s'.replicas[w]) {
      assert ReplicaOk(s, s.replicas[w]);
      ReplicaPersists(s, s', s.replicas[w], s.replicas[w]);
      if w == v {
        CommittedPersists(s, s', s.replicas[v].log[..commit], s.replicas[v].term, s.replicas[v].term);
      }
    }
  }

  lemma SetCommitAcks(s: System, s': System)
    requires Later(s, s') && AcksOk(s) && AcksKept(s) && s'.acks == s.acks && s'.tenures == s.tenures
    requires SameStanding(s, s')
    ensures AcksOk(s') && AcksKept(s')
  {
    forall a | a in s'.acks ensures AckOk(s', a) && Kept(s', a, s'.replicas[a.replica].log) {
      assert AckOk(s, a);
      assert SameOffice(s.replicas[a.replica], s'.replicas[a.replica]);
      KeptPersists(s, s', a, s.replicas[a.replica].log);
    }
  }

  /** A follower that holds an offer commits what the offer says is committed. */
  lemma LearnKeeps(s: System, v: Id, m: Offer, commit: nat)
    requires Inv(s) && v in s.replicas && m in s.offers && m.term == s.replicas[v].term
    requires m.log <= s.replicas[v].log && commit <= m.commit && commit <= |m.log|
    ensures Inv(SetCommit(s, v, commit)) && Later(s, SetCommit(s, v, commit))
  {
    assert OfferOk(s, m);
    var p := s.replicas[v].log[..commit];
    assert p <= m.log[..Min(m.commit, |m.log|)];
    CommittedPrefix(s, p, m.log[..Min(m.commit, |m.log|)], m.term);
    SetCommitKeeps(s, v, commit);
  }

  /** A leader commits an entry of its own term that a majority acknowledged. */
  lemma DecideKeeps(s: System, l: Id, q: set<Id>, k: nat)
    requires Inv(s) && l in s.replicas && s.replicas[l].role == Leader
    requires 0 < k <= |s.replicas[l].log| && s.replicas[l].log[k - 1].term == s.replicas[l].term
    requires AckedBy(s, q, s.replicas[l].term, k)
    ensures Inv(SetCommit(s, l, k)) && Later(s, SetCommit(s, l, k))
  {
    var r := s.replicas[l];
    assert RoleOk(s, l, r);
    assert Decided(s, r.term, k);
    SetCommitKeeps(s, l, k);
  }

  // ---------------------------------------------------------------- a crash between cut and append

  ghost predicate Conflict(log: seq<Entry>, offered: seq<Entry>, j: nat) {
    j < |log| && j < |offered| && log[..j] == offered[..j] && log[j] != offered[j]
  }

  lemma CutKeepsPrefix(log: seq<Entry>, offered: seq<Entry>, j: nat, tenure: seq<Entry>, p: seq<Entry>)
    requires Conflict(log, offered, j) && offered <= tenure && p <= tenure && p <= log
    ensures p <= log[..j]
  {
  }

  lemma CutKeeps(s: System, v: Id, m: Offer, j: nat)
    requires Inv(s) && v in s.replicas && m in s.offers && m.term == s.replicas[v].term
    requires Conflict(s.replicas[v].log, m.log, j)
    ensures Inv(Cut(s, v, j)) && Later(s, Cut(s, v, j))
    ensures s.replicas[v].commit <= j
  {
    var s' := Cut(s, v, j);
    assert Receives(s, v, m);
    CutLater(s, v, j);
    CutReplicas(s, v, m, j);
    CutAcks(s, v, m, j);
    StandingKept(s, s', v);
    GrantsKeptPersist(s, s');
    Settled(s, s');
  }

  lemma CutLater(s: System, v: Id, j: nat)
    requires v in s.replicas && j <= |s.replicas[v].log|
    ensures Later(s, Cut(s, v, j))
  {
  }

  lemma CutReplicas(s: System, v: Id, m: Offer, j: nat)
    requires Receives(s, v, m) && ReplicasOk(s) && Complete(s) && Conflict(s.replicas[v].log, m.log, j)
    requires Later(s, Cut(s, v, j))
    ensures ReplicasOk(Cut(s, v, j)) && s.replicas[v].commit <= j
  {
    var s' := Cut(s, v, j);
    var r := s.replicas[v];
    var p := r.log[..r.commit];
    assert ReplicaOk(s, r);
    CommittedInTenure(s, p, r.term, m.term);
    CutKeepsPrefix(r.log, m.log, j, s.tenures[m.term].log, p);
    TracedPrefix(s, r.log[..j], r.log);
    TracedPersists(s, s', r.log[..j]);
    CommittedPersists(s, s', p, r.term, r.term);
    assert r.log[..j][..r.commit] == p;
    forall w | w in s'.replicas ensures ReplicaOk(s', s'.replicas[w]) {
      ReplicaPersists(s, s', s.replicas[w], s.replicas[w]);
    }
  }

  lemma CutAcks(s: System, v: Id, m: Offer, j: nat)
    requires Receives(s, v, m) && AcksOk(s) && AcksKept(s) && Complete(s)
    requires Conflict(s.replicas[v].log, m.log, j) && Later(s, Cut(s, v, j))
    ensures AcksOk(Cut(s, v, j)) && AcksKept(Cut(s, v, j))
  {
    var s' := Cut(s, v, j);
    forall a | a in s'.acks ensures AckOk(s', a) && Kept(s', a, s'.replicas[a.replica].log) {
      assert AckOk(s, a);
      if a.replica == v {
        CutKept(s, a, s.replicas[v].log, m, j);
      }
      KeptPersists(s, s', a, s'.replicas[a.replica].log);
    }
  }

  lemma CutKept(s: System, a: Ack, log: seq<Entry>, m: Offer, j: nat)
    requires Complete(s) && OfferOk(s, m) && Kept(s, a, log) && a.term <= m.term && Conflict(log, m.log, j)
    ensures Kept(s, a, log[..j])
  {
    forall k: nat | k <= a.index && Own(s, a.term, k)
      ensures s.tenures[a.term].log[..k] <= log[..j] || Dead(s, a.term, k)
    {
      if !Dead(s, a.term, k) {
        CutKeepsPrefix(log, m.log, j, s.tenures[m.term].log, s.tenures[a.term].log[..k]);
      }
    }
  }
}
