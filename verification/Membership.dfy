/** `membership.rs`: peer-id-normalised configurations and their quorums. */
module Membership {
  import opened Basics
  import opened RaftTypes

  type Members = map<Id, Peer>

  datatype Config = Config(current: Members, next: Members)

  /** Members by id; of two peers with one id the later stays. */
  function FromPeers(peers: seq<Peer>): Members {
    if peers == [] then map[]
    else
      var last := peers[|peers| - 1];
      FromPeers(peers[..|peers| - 1])[last.id := last]
  }

  function Stable(members: Members): Config {
    Config(members, map[])
  }

  predicate IsJoint(c: Config) {
    c.next != map[]
  }

  function AllMembers(c: Config): set<Id> {
    c.current.Keys + c.next.Keys
  }

  predicate Contains(c: Config, id: Id) {
    id in c.current || id in c.next
  }

  predicate IsVoter(c: Config, id: Id) {
    (id in c.current && c.current[id].suffrage == Voter) || (id in c.next && c.next[id].suffrage == Voter)
  }

  function TransitionTo(c: Config, proposed: Proposal): Config {
    Config(c.current, FromPeers(proposed))
  }

  function FinalizeTransition(c: Config): Config {
    if IsJoint(c) then Config(c.next, map[]) else c
  }

  function Voters(m: Members): set<Id> {
    set id | id in m && m[id].suffrage == Voter
  }

  predicate HasMajority(m: Members, ids: set<Id>) {
    |Voters(m)| > 0 && |Voters(m) * ids| > |Voters(m)| / 2
  }

  predicate HasJointMajority(c: Config, ids: set<Id>) {
    HasMajority(c.current, ids) && (IsJoint(c) ==> HasMajority(c.next, ids))
  }

  // ---------------------------------------------------------------- quorums meet

  lemma MajoritiesShare(m: Members, p: set<Id>, q: set<Id>) returns (x: Id)
    requires HasMajority(m, p) && HasMajority(m, q)
    ensures x in p && x in q && x in Voters(m)
  {
    var a, b := Voters(m) * p, Voters(m) * q;
    if a * b == {} {
      assert |a + b| == |a| + |b|;
      SubsetSize(a + b, Voters(m));
      assert false;
    }
    x :| x in a * b;
  }

  /** One step of a membership change: staying, proposing, or finalizing. */
  predicate Edge(c: Config, d: Config) {
    d == c || d == FinalizeTransition(c) || (d.current == c.current && IsJoint(d))
  }

  /** Quorums of configurations that one change connects share a voter of both. */
  lemma QuorumsShareVoter(c: Config, d: Config, p: set<Id>, q: set<Id>) returns (x: Id)
    requires Edge(c, d) && HasJointMajority(c, p) && HasJointMajority(d, q)
    ensures x in p && x in q && IsVoter(c, x) && IsVoter(d, x)
  {
    if d.current == c.current {
      x := MajoritiesShare(c.current, p, q);
    } else {
      x := MajoritiesShare(c.next, p, q);
    }
  }

  // ---------------------------------------------------------------- members in order

  /** The byte order of a `BTreeMap<String, _>`. */
  predicate Less(a: Bytes, b: Bytes) {
    b != [] && (a == [] || a[0] < b[0] || (a[0] == b[0] && Less(a[1..], b[1..])))
  }

  lemma {:induction false} LessIsTotal(a: Bytes, b: Bytes)
    ensures a == b || Less(a, b) || Less(b, a)
    ensures !(Less(a, b) && Less(b, a)) && !Less(a, a)
  {
    if a != [] {
      if b != [] {
        LessIsTotal(a[1..], b[1..]);
        assert a == [a[0]] + a[1..];
        assert b == [b[0]] + b[1..];
      }
      LessIsTotal(a[1..], a[1..]);
    }
  }

  lemma {:induction false} LessTrans(a: Bytes, b: Bytes, c: Bytes)
    requires Less(a, b) && Less(b, c)
    ensures Less(a, c)
  {
    if a != [] && a[0] == b[0] && b[0] == c[0] {
      LessTrans(a[1..], b[1..], c[1..]);
    }
  }

  predicate IsLeast(x: Id, ids: set<Id>) {
    x in ids && forall y :: y in ids && y != x ==> Less(x, y)
  }

  lemma {:induction false} LeastExists(ids: set<Id>)
    requires ids != {}
    ensures exists x :: IsLeast(x, ids)
    decreases |ids|
  {
    var a :| a in ids;
    if ids == {a} {
      assert IsLeast(a, ids);
    } else {
      var rest := ids - {a};
      assert ids == rest + {a};
      LeastExists(rest);
      var x :| IsLeast(x, rest);
      LessIsTotal(a, x);
      if Less(x, a) {
        assert IsLeast(x, ids);
      } else {
        forall y | y in ids && y != a ensures Less(a, y) {
          if y != x {
            LessTrans(a, x, y);
          }
        }
        assert IsLeast(a, ids);
      }
    }
  }

  lemma LeastIsUnique(x: Id, y: Id, ids: set<Id>)
    requires IsLeast(x, ids) && IsLeast(y, ids)
    ensures x == y
  {
    LessIsTotal(x, y);
  }

  function Least(ids: set<Id>): (x: Id)
    requires ids != {}
    ensures IsLeast(x, ids)
  {
    LeastExists(ids);
    assert forall a, b :: IsLeast(a, ids) && IsLeast(b, ids) ==> a == b by {
      forall a, b | IsLeast(a, ids) && IsLeast(b, ids) ensures a == b {
        LeastIsUnique(a, b, ids);
      }
    }
    var x :| x in ids && IsLeast(x, ids);
    x
  }

  /** The peers of a configuration half in id order. */
  function Listing(m: Members): seq<Peer>
    decreases |m|
  {
    if m == map[] then []
    else
      assert m.Keys != {};
      var k := Least(m.Keys);
      assert |m - {k}| < |m| by { Smaller(m, k); }
      [m[k]] + Listing(m - {k})
  }

  lemma Smaller(m: Members, k: Id)
    requires k in m
    ensures |m - {k}| < |m|
  {
    assert (m - {k}).Keys == m.Keys - {k};
    assert |(m - {k}).Keys| == |m.Keys| - 1;
  }

  ghost predicate WellKeyed(m: Members) {
    forall k :: k in m ==> m[k].id == k
  }

  lemma {:induction false} FromPeersFront(p: Peer, rest: seq<Peer>)
    ensures FromPeers([p] + rest) == map[p.id := p] + FromPeers(rest)
  {
    var all := [p] + rest;
    if rest == [] {
      assert all[..|all| - 1] == [];
    } else {
      var n := |rest| - 1;
      assert all[..|all| - 1] == [p] + rest[..n];
      FromPeersFront(p, rest[..n]);
    }
  }

  lemma {:induction false} ListingRebuilds(m: Members)
    requires WellKeyed(m)
    ensures FromPeers(Listing(m)) == m
    ensures Listing(m) == [] <==> m == map[]
    decreases |m|
  {
    if m != map[] {
      var k := Least(m.Keys);
      Smaller(m, k);
      ListingRebuilds(m - {k});
      FromPeersFront(m[k], Listing(m - {k}));
      PutBack(m, k);
    }
  }

  lemma PutBack(m: Members, k: Id)
    requires k in m
    ensures map[k := m[k]] + (m - {k}) == m
  {
  }

  lemma {:induction false} ListingHolds(m: Members, p: Peer)
    requires p in Listing(m)
    ensures exists k :: k in m && m[k] == p
    decreases |m|
  {
    var k := Least(m.Keys);
    Smaller(m, k);
    if p != m[k] {
      ListingHolds(m - {k}, p);
      var j :| j in m - {k} && (m - {k})[j] == p;
      assert j in m && m[j] == p;
    }
  }

  lemma {:induction false} FromPeersKeyed(peers: seq<Peer>)
    ensures WellKeyed(FromPeers(peers)) && (FromPeers(peers) == map[] <==> peers == [])
    ensures forall k :: k in FromPeers(peers) ==> FromPeers(peers)[k] in peers
  {
    if peers != [] {
      FromPeersKeyed(peers[..|peers| - 1]);
      assert peers[|peers| - 1].id in FromPeers(peers);
    }
  }
}
