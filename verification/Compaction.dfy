/** Compaction is invisible: what an append request does depends on the whole log alone. */
module Compaction {
  import opened Basics
  import opened RaftTypes
  import opened Membership
  import opened LogStore
  import opened Node
  import opened Handlers
  import opened Coherence
  import opened FollowerSimulation

  // ---------------------------------------------------------------- requests over whole logs

  /** A store that was never compacted. */
  function Whole(h: seq<Entry>): Log {
    Log(0, 0, [], h)
  }

  /** `req` carries the log `o` of some leader, from `prevIndex` on. */
  ghost predicate Carries(req: AppendRequest, o: seq<Entry>) {
    && req.prevIndex <= |o| && req.entries == o[req.prevIndex..]
    && req.prevTerm == TermOf(o, req.prevIndex)
  }

  /** The leader's log and the follower's do not differ up to `commit`. */
  ghost predicate AgreeTo(h: seq<Entry>, o: seq<Entry>, commit: nat) {
    commit <= |h| && o[..Min(|o|, commit)] == h[..Min(|o|, commit)]
  }

  predicate Fits(h: seq<Entry>, req: AppendRequest) {
    req.prevIndex <= |h| && TermOf(h, req.prevIndex) == req.prevTerm
  }

  /** The whole log after a request, as a store without snapshots would compute it. */
  function LogAfter(h: seq<Entry>, req: AppendRequest): seq<Entry> {
    if Fits(h, req) then Merge(Whole(h), req.prevIndex, req.entries, 0).entries else h
  }

  function CommitAfter(h: seq<Entry>, commit: nat, req: AppendRequest): nat {
    if Fits(h, req) then Max(commit, Min(req.commit, req.prevIndex + |req.entries|)) else commit
  }

  // ---------------------------------------------------------------- merging behind a snapshot

  lemma WholeRepresents(h: seq<Entry>)
    ensures Represents(Whole(h), h)
  {
    assert h[0..] == h;
  }

  /** A merge does the same to a compacted log as to the whole one. */
  lemma {:induction false} MergeOfWhole(l: Log, h: seq<Entry>, prev: nat, es: seq<Entry>, i: nat)
    requires Represents(l, h) && l.base <= prev && i <= |es| && prev + i <= |h|
    ensures Represents(Merge(l, prev, es, i), Merge(Whole(h), prev, es, i).entries)
    decreases |es| - i
  {
    hide Represents, TruncateFrom, AppendAll;
    var w := Whole(h);
    WholeRepresents(h);
    BaseInLog(l, h);
    QueriesAgree(l, h);
    QueriesAgree(w, h);
    if i < |es| {
      var k := prev + i;
      if k == |h| {
        AppendRepresents(l, h, es[i..]);
        AppendWhole(h, es[i..]);
      } else if h[k].term != es[i].term {
        TruncateRepresents(l, h, k + 1);
        AppendRepresents(TruncateFrom(l, k + 1), h[..k], es[i..]);
        TruncateWhole(h, k + 1);
        AppendWhole(h[..k], es[i..]);
      } else {
        MergeOfWhole(l, h, prev, es, i + 1);
      }
    }
  }

  lemma AppendWhole(h: seq<Entry>, es: seq<Entry>)
    ensures AppendAll(Whole(h), es) == Whole(h + es)
  {
  }

  lemma TruncateWhole(h: seq<Entry>, index: nat)
    requires 0 < index <= |h|
    ensures TruncateFrom(Whole(h), index) == Whole(h[..index - 1])
  {
  }

  /** Entries that agree term by term are skipped. */
  lemma {:induction false} MergeSkips(h: seq<Entry>, o: seq<Entry>, prev: nat, i: nat, k: nat)
    requires prev + i <= k <= |o| && k <= |h|
    requires forall j :: prev + i <= j < k ==> h[j].term == o[j].term
    ensures Merge(Whole(h), prev, o[prev..], i) == Merge(Whole(h), k, o[k..], 0)
    decreases |o| - prev - i, k - i
  {
    if prev + i < k {
      assert o[prev..][i] == o[prev + i];
      MergeSkips(h, o, prev, i + 1, k);
    } else {
      MergeShift(h, o, prev, i, 0);
    }
  }

  lemma {:induction false} MergeShift(h: seq<Entry>, o: seq<Entry>, prev: nat, i: nat, d: nat)
    requires prev + i + d <= |o|
    ensures Merge(Whole(h), prev, o[prev..], i + d) == Merge(Whole(h), prev + i, o[prev + i..], d)
    decreases |o| - d
  {
    var a, b := o[prev..], o[prev + i..];
    if d < |b| {
      assert a[i + d..] == b[d..] && a[i + d] == b[d];
      MergeShift(h, o, prev, i, d + 1);
    }
  }

  /** Nothing below the first disagreement is lost. */
  lemma {:induction false} MergeKeeps(h: seq<Entry>, prev: nat, es: seq<Entry>, i: nat, commit: nat)
    requires i <= |es| && commit <= |h| && prev + i <= |h|
    requires forall j :: i <= j < |es| && prev + j < commit ==> h[prev + j].term == es[j].term
    ensures var h' := Merge(Whole(h), prev, es, i).entries; commit <= |h'| && h'[..commit] == h[..commit]
    decreases |es| - i
  {
    if i < |es| && prev + i < |h| && h[prev + i].term == es[i].term {
      MergeKeeps(h, prev, es, i + 1, commit);
    }
  }

  // ---------------------------------------------------------------- one request

  lemma CoherentRelog<S>(app: Machine<S>, c0: Config, x: Core<S>, h: seq<Entry>, l: Log, h': seq<Entry>)
    requires Coherent(app, c0, x, h) && Represents(l, h') && l.base == x.log.base && l.image == x.log.image
    requires x.commit <= |h'| && h'[..x.commit] == h[..x.commit]
    ensures Coherent(app, c0, x.(log := l), h')
  {
    hide ImageOk, Fold, FoldConfig;
    assert h'[..x.applied] == h'[..x.commit][..x.applied];
    assert h[..x.applied] == h[..x.commit][..x.applied];
    assert h'[..l.base] == h'[..x.commit][..l.base];
    assert h[..l.base] == h[..x.commit][..l.base];
  }

  lemma {:induction false} MergeIsSafe(l: Log, prev: nat, es: seq<Entry>, i: nat)
    requires i <= |es| && SafeLog(l.entries) && SafeLog(es)
    ensures SafeLog(Merge(l, prev, es, i).entries)
    decreases |es| - i
  {
    hide SafeEntry;
    if i < |es| && prev + 1 + i <= LastIndex(l) && TermAt(l, prev + 1 + i) == es[i].term {
      MergeIsSafe(l, prev, es, i + 1);
    }
  }

  lemma MergedCoherent<S(!new)>(env: Env<S>, c0: Config, n: Node<S>, h: seq<Entry>, prev: nat, es: seq<Entry>)
    requires Ready(env.app, c0, h) && Coherent(env.app, c0, CoreOf(n), h) && SafeLog(es)
    requires n.disk.log.base <= prev <= |h|
    requires forall j :: 0 <= j < |es| && prev + j < n.commit ==> h[prev + j].term == es[j].term
    ensures var h' := Merge(Whole(h), prev, es, 0).entries;
            && Ready(env.app, c0, h') && n.commit <= |h'|
            && Coherent(env.app, c0, CoreOf(MergeNode(n, prev, es)), h')
  {
    hide SafeLog, SafeConfig, Lawful, Merge, MergeNode, FoldConfig, Fold, ImageOk, Represents;
    var h' := Merge(Whole(h), prev, es, 0).entries;
    var l := Merge(n.disk.log, prev, es, 0);
    MergeOfWhole(n.disk.log, h, prev, es, 0);
    MergeKeepsBase(n.disk.log, prev, es, 0);
    MergeKeeps(h, prev, es, 0, n.commit);
    MergeIsSafe(Whole(h), prev, es, 0);
    CoherentRelog(env.app, c0, CoreOf(n), h, l, h');
    MergeFields(n, prev, es);
  }

  /** A request at or past the snapshot boundary. */
  lemma ReplicateCoherent<S(!new)>(
    env: Env<S>, c0: Config, n: Node<S>, h: seq<Entry>, prev: nat, prevTerm: nat, es: seq<Entry>, commit: nat)
    requires Ready(env.app, c0, h) && Coherent(env.app, c0, CoreOf(n), h) && SafeLog(es)
    requires n.applied == n.commit && n.role == Follower && n.disk.log.base <= prev
    requires prev == 0 ==> prevTerm == 0
    requires forall j :: 0 <= j < |es| && prev + j < n.commit ==> h[prev + j].term == es[j].term
    ensures var r := Replicate(env, n, prev, prevTerm, es, commit).0;
            var fits := prev <= |h| && TermOf(h, prev) == prevTerm;
            var h' := if fits then Merge(Whole(h), prev, es, 0).entries else h;
            && Ready(env.app, c0, h') && Coherent(env.app, c0, CoreOf(r), h') && r.applied == r.commit
            && r.commit == if fits then Max(n.commit, Min(commit, prev + |es|)) else n.commit
  {
    hide Ready, Merge, MergeNode, FoldConfig, Fold, ImageOk, ApplyCommitted;
    QueriesAgree(n.disk.log, h);
    if prev <= |h| && TermOf(h, prev) == prevTerm {
      var m := MergeNode(n, prev, es);
      var h' := Merge(Whole(h), prev, es, 0).entries;
      MergedCoherent(env, c0, n, h, prev, es);
      MergeFields(n, prev, es);
      var c := Min(commit, prev + |es|);
      if c > n.commit {
        MergeReaches(h, prev, es, 0);
        HigherCommit(env.app, c0, CoreOf(m), h', c);
        var h'' := ApplyCommittedCoherent(env, c0, m.(commit := c), h');
      }
    }
  }

  lemma {:induction false} MergeReaches(h: seq<Entry>, prev: nat, es: seq<Entry>, i: nat)
    requires i <= |es| && prev + i <= |h|
    ensures prev + |es| <= |Merge(Whole(h), prev, es, i).entries|
    decreases |es| - i
  {
    if i < |es| && prev + i < |h| && h[prev + i].term == es[i].term {
      MergeReaches(h, prev, es, i + 1);
    }
  }

  /** What a request with a known term does is a function of the whole log. */
  lemma AppendBodyCoherent<S(!new)>(
    env: Env<S>, c0: Config, n: Node<S>, h: seq<Entry>, o: seq<Entry>, req: AppendRequest)
    requires Ready(env.app, c0, h) && Coherent(env.app, c0, CoreOf(n), h) && SafeLog(o)
    requires n.applied == n.commit && n.role == Follower && Carries(req, o) && AgreeTo(h, o, n.commit)
    ensures var r := AppendBody(env, n, req).0;
            && Ready(env.app, c0, LogAfter(h, req)) && Coherent(env.app, c0, CoreOf(r), LogAfter(h, req))
            && r.applied == r.commit == CommitAfter(h, n.commit, req)
  {
    hide Ready, Merge, FoldConfig, Fold, ImageOk, Replicate, SafeEntry, AgreeTo;
    var base := n.disk.log.base;
    var prev := req.prevIndex;
    AgreedTerms(h, o, n.commit);
    if prev < base {
      Overlapping(h, o, req, base, n.commit);
      if |o| >= base {
        ReplicateCoherent(env, c0, n, h, base, n.disk.log.baseTerm, o[base..], req.commit);
      }
    } else {
      ReplicateCoherent(env, c0, n, h, prev, req.prevTerm, req.entries, req.commit);
    }
  }

  /** A request that starts inside a committed prefix acts from the end of that prefix on. */
  lemma Overlapping(h: seq<Entry>, o: seq<Entry>, req: AppendRequest, base: nat, commit: nat)
    requires Carries(req, o) && AgreeTo(h, o, commit) && req.prevIndex < base <= commit
    ensures Fits(h, req)
    ensures |o| < base ==> |req.entries| < base - req.prevIndex && LogAfter(h, req) == h
    ensures |o| >= base ==>
              && base - req.prevIndex <= |req.entries|
              && req.entries[base - req.prevIndex..] == o[base..]
              && req.entries[base - req.prevIndex - 1].term == TermOf(h, base)
              && LogAfter(h, req) == Merge(Whole(h), base, o[base..], 0).entries
  {
    hide Merge;
    AgreedTerms(h, o, commit);
    if |o| < base {
      MergeSkips(h, o, req.prevIndex, 0, |o|);
      assert o[|o|..] == [];
      MergeNothing(h, |o|);
    } else {
      MergeSkips(h, o, req.prevIndex, 0, base);
    }
  }

  lemma MergeNothing(h: seq<Entry>, k: nat)
    ensures Merge(Whole(h), k, [], 0) == Whole(h)
  {
  }

  lemma AgreedTerms(h: seq<Entry>, o: seq<Entry>, commit: nat)
    requires AgreeTo(h, o, commit)
    ensures forall j :: 0 <= j < |o| && j < commit ==> h[j].term == o[j].term
  {
    var k := Min(|o|, commit);
    forall j | 0 <= j < |o| && j < commit ensures h[j].term == o[j].term {
      assert o[..k][j] == h[..k][j];
    }
  }

  lemma FollowCore<S>(n: Node<S>, t: nat, leader: Id)
    ensures CoreOf(Follow(n, t, leader)) == CoreOf(n) && Follow(n, t, leader).role == Follower
  {
    hide Follow, StepDown;
    if t > n.term {
      FollowsUp(n, t, leader);
      StepDownCore(n, t);
    } else {
      FollowsOn(n, t, leader);
    }
  }

  lemma StepDownCore<S>(n: Node<S>, t: nat)
    ensures CoreOf(StepDown(n, t)) == CoreOf(n) && StepDown(n, t).role == Follower
  {
  }

  /** What an accepted request leaves is the effect on the whole log, wherever the snapshot ends. */
  lemma AppendIsWhole<S(!new)>(
    env: Env<S>, c0: Config, n: Node<S>, h: seq<Entry>, o: seq<Entry>, req: AppendRequest)
    requires Ready(env.app, c0, h) && Coherent(env.app, c0, CoreOf(n), h) && SafeLog(o)
    requires n.applied == n.commit && Carries(req, o) && AgreeTo(h, o, n.commit)
    requires n.term <= req.term && !Refuses(n, req.term, req.leader)
    ensures var r := HandleAppend(env, n, req).0;
            && Ready(env.app, c0, LogAfter(h, req)) && Coherent(env.app, c0, CoreOf(r), LogAfter(h, req))
            && r.applied == r.commit == CommitAfter(h, n.commit, req)
  {
    hide Ready, Coherent, LogAfter, CommitAfter, Follow, AppendBody, Refuses, Carries, AgreeTo, SafeLog;
    FollowCore(n, req.term, req.leader);
    AppendBodyCoherent(env, c0, Follow(n, req.term, req.leader), h, o, req);
  }

  /** Two nodes that differ in what they have compacted. */
  ghost predicate SameButSnapshot<S>(n: Node<S>, m: Node<S>) {
    && m.me == n.me && m.role == n.role && m.term == n.term && m.knownLeader == n.knownLeader
    && m.joiningFrom == n.joiningFrom && m.commit == n.commit && m.applied == n.applied
  }

  /**
   * A compacted node and an uncompacted one that hold the same log answer a request with the same
   * log, commit index, membership and application state.
   */
  lemma CompactionIsInvisible<S(!new)>(
    env: Env<S>, c0: Config, n: Node<S>, m: Node<S>, h: seq<Entry>, o: seq<Entry>, req: AppendRequest)
    returns (h': seq<Entry>)
    requires Ready(env.app, c0, h) && SafeLog(o) && SameButSnapshot(n, m)
    requires Coherent(env.app, c0, CoreOf(n), h) && Coherent(env.app, c0, CoreOf(m), h)
    requires n.applied == n.commit && Carries(req, o) && AgreeTo(h, o, n.commit)
    ensures var a, b := HandleAppend(env, n, req).0, HandleAppend(env, m, req).0;
            && Represents(a.disk.log, h') && Represents(b.disk.log, h')
            && a.commit == b.commit && a.applied == b.applied && a.commit == a.applied
            && a.config == b.config && a.machine == b.machine
  {
    hide Ready, SafeLog, AppendBody, Follow, Carries, AgreeTo, LogAfter, CommitAfter, IsVoter, FoldConfig, Fold, ImageOk,
         Represents;
    h' := h;
    if n.term <= req.term && !Refuses(n, req.term, req.leader) {
      AppendIsWhole(env, c0, n, h, o, req);
      AppendIsWhole(env, c0, m, h, o, req);
      h' := LogAfter(h, req);
    }
  }

  /** A delayed request without a conflicting term never shortens the log. */
  lemma {:induction false} NoConflictNoCut(l: Log, prev: nat, es: seq<Entry>, i: nat)
    requires i <= |es|
    ensures ConflictAt(l, prev, es, i) == None <==>
              forall j :: i <= j < |es| && prev + 1 + j <= LastIndex(l) ==> TermAt(l, prev + 1 + j) == es[j].term
    ensures ConflictAt(l, prev, es, i) == None ==> l.entries <= Merge(l, prev, es, i).entries
    decreases |es| - i
  {
    if i < |es| && prev + 1 + i <= LastIndex(l) && TermAt(l, prev + 1 + i) == es[i].term {
      NoConflictNoCut(l, prev, es, i + 1);
    }
  }
}
