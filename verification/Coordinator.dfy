/** A coordinator wires one election node, one token-ring node and one replicated log together. Every
    coordinator works out the ring by itself; that all of them work out the same one is proved here. */
module Coordinator {
  import opened Types
  import opened Quorum
  import opened Ordering
  import opened ElectionObject
  import opened TokenRing
  import opened RaftLogNode
  import opened Sections
  import opened Proposal
  import ElectionModel
  import RingModel
  import LogModel
  import ElectionCluster
  import RingCluster
  import Ensemble

  /** All node ids in ascending order. */
  function RingOrder(id: nat, peers: seq<nat>): (ring: seq<nat>)
    ensures |ring| == |peers| + 1 && Ascending(ring) && multiset(ring) == multiset([id] + peers)
  {
    var ids: seq<int> := [id] + peers;
    SortKeepsBag(ids);
    assert forall k :: 0 <= k < |ids| ==> Sort(ids)[k] in multiset(ids);
    Sort(ids)
  }

  class CoordinatorNode {
    const election: ElectionNode
    const tokenRing: TokenRingManager
    const raftLog: RaftLog
    var alive: bool

    constructor (id: nat, peerIDs: seq<nat>)
      ensures alive && fresh(election) && fresh(tokenRing) && fresh(raftLog)
      ensures election.View() == ElectionModel.NewElection(id, peerIDs)
      ensures var ring := RingOrder(id, peerIDs);
              tokenRing.Valid() && tokenRing.View() == RingModel.NewRing(id, ring, ring[0])
      ensures raftLog.Valid() && raftLog.View() == LogModel.NewLog(id, peerIDs)
      ensures raftLog.stopCh != election.stopCh && raftLog.stopCh != tokenRing.stopCh
    {
      var allNodes := RingOrder(id, peerIDs);
      election := new ElectionNode(id, peerIDs);
      tokenRing := new TokenRingManager(id, allNodes, allNodes[0]);
      raftLog := new RaftLog(id, peerIDs);
      alive := true;
    }

    method OnBecomeLeader(term: int)
      requires raftLog.Valid()
      modifies raftLog
      ensures raftLog.Valid() && raftLog.View() == LogModel.BecomeLeader(old(raftLog.View()), term)
    {
      raftLog.BecomeLeader(term);
    }

    method OnBecomeFollower(term: int)
      requires raftLog.Valid()
      modifies raftLog
      ensures raftLog.Valid() && raftLog.View() == LogModel.BecomeFollower(old(raftLog.View()), term)
    {
      raftLog.BecomeFollower(term);
    }

    /** Both modules must take this node for the leader before anything is appended. The election module is
        asked first; `meanwhile` is what happens to the log module before the proposal gets its lock, and
        the course what happens to it afterwards. */
    method ProposeChange(change: ChangeType, key: string, value: string, meanwhile: seq<Section>, course: Course)
      returns (committed: bool, sent: seq<Outgoing>)
      requires raftLog.Valid() && CanMeanwhile(raftLog.View(), meanwhile)
      requires CanPropose(Meanwhile(raftLog.View(), meanwhile), change, key, value, course)
      modifies raftLog
      ensures raftLog.Valid()
      ensures election.role != ElectionModel.Leader ==>
                !committed && sent == [] && raftLog.View() == old(raftLog.View())
      ensures election.role == ElectionModel.Leader ==>
                Outcome(raftLog.View(), committed, sent) ==
                Propose(Meanwhile(old(raftLog.View()), meanwhile), change, key, value, course)
      ensures committed ==>
                election.role == ElectionModel.Leader && Meanwhile(old(raftLog.View()), meanwhile).isLeader
    {
      if election.role != ElectionModel.Leader {
        return false, [];
      }
      raftLog.Interleave(meanwhile);
      committed, sent := raftLog.ProposeEntry(change, key, value, course);
    }

    /** A killed node stops its election and token loops; its modules keep their state and the log module
        goes on. */
    method Kill()
      modifies this, election.stopCh, tokenRing.stopCh
      ensures !alive && election.stopCh.closed && tokenRing.stopCh.closed
      ensures raftLog.stopCh !in {election.stopCh, tokenRing.stopCh} ==>
                raftLog.stopCh.closed == old(raftLog.stopCh.closed)
    {
      alive := false;
      election.Stop();
      tokenRing.Stop();
    }

    method Stop()
      modifies this, election.stopCh, tokenRing.stopCh, raftLog.stopCh
      ensures !alive && election.stopCh.closed && tokenRing.stopCh.closed && raftLog.stopCh.closed
    {
      alive := false;
      election.Stop();
      tokenRing.Stop();
      raftLog.Stop();
    }
  }

  // ---------- one ring for everybody ----------

  /** Every node knows all the others, once each. */
  ghost predicate WellConfigured(peers: map<nat, seq<nat>>) {
    forall i :: i in peers ==> Distinct(peers[i]) && Members(peers[i]) == peers.Keys - {i}
  }

  lemma {:induction false} DistinctBag(s: seq<nat>)
    requires Distinct(s)
    ensures multiset(s) == multiset(Members(s))
  {
    if s == [] {
      assert Members(s) == {};
    } else {
      var rest, last := s[..|s| - 1], s[|s| - 1];
      DistinctBag(rest);
      assert s == rest + [last];
      assert Members(s) == Members(rest) + {last};
    }
  }

  lemma OwnBag(peers: map<nat, seq<nat>>, i: nat)
    requires WellConfigured(peers) && i in peers
    ensures multiset([i] + peers[i]) == multiset(peers.Keys)
  {
    DistinctBag(peers[i]);
    assert peers.Keys == (peers.Keys - {i}) + {i};
  }

  lemma TwiceInBag(s: seq<nat>, i: nat, j: nat)
    requires i < j < |s|
    ensures s[i] == s[j] ==> multiset(s)[s[i]] >= 2
  {
    assert s == s[..i] + [s[i]] + s[i + 1..j] + [s[j]] + s[j + 1..];
  }

  lemma BagOfSetIsDistinct(s: seq<nat>, all: set<nat>)
    requires multiset(s) == multiset(all)
    ensures Distinct(s) && Members(s) == all
  {
    forall i, j | 0 <= i < j < |s| ensures s[i] != s[j] {
      TwiceInBag(s, i, j);
      assert multiset(all)[s[i]] <= 1;
    }
    forall x ensures x in Members(s) <==> x in all {
      assert x in s <==> x in multiset(s);
    }
  }

  /** All nodes of a cluster arrive at the same ring: every id once, strictly ascending. */
  lemma SameRingEverywhere(peers: map<nat, seq<nat>>, i: nat, j: nat)
    requires WellConfigured(peers) && i in peers && j in peers
    ensures var ring := RingOrder(i, peers[i]);
            && ring == RingOrder(j, peers[j])
            && Distinct(ring) && Members(ring) == peers.Keys
            && forall a, b :: 0 <= a < b < |ring| ==> ring[a] < ring[b]
  {
    OwnBag(peers, i);
    OwnBag(peers, j);
    AscendingUnique(RingOrder(i, peers[i]), RingOrder(j, peers[j]));
    BagOfSetIsDistinct(RingOrder(i, peers[i]), peers.Keys);
  }

  // ---------- the clusters at the start ----------

  function RingAtStart(peers: map<nat, seq<nat>>, k: nat): RingCluster.Cluster
    requires k in peers
  {
    var ring := RingOrder(k, peers[k]);
    RingCluster.Cluster(
      ring,
      map i | i in peers :: RingModel.NewRing(i, RingOrder(i, peers[i]), RingOrder(i, peers[i])[0]),
      multiset{}, peers.Keys,
      RingCluster.Chronicle(RingCluster.Held(ring[0]), [ring[0]], [], map[], map[], 0))
  }

  lemma NodeAtStart(peers: map<nat, seq<nat>>, k: nat, i: nat)
    requires WellConfigured(peers) && k in peers && i in peers
    ensures var c := RingAtStart(peers, k);
            && c.nodes.Keys == peers.Keys && c.nodes[i] == RingModel.NewRing(i, c.ring, c.ring[0])
            && Distinct(c.ring) && Members(c.ring) == peers.Keys && c.ring[0] <= i
  {
    hide RingOrder, RingModel.IndexOf, RingModel.NewRing, WellConfigured;
    SameRingEverywhere(peers, i, k);
    assert i in Members(RingOrder(k, peers[k]));
  }

  lemma MakesFresh(c: RingCluster.Cluster)
    requires |c.ring| > 0 && Distinct(c.ring) && c.nodes.Keys == Members(c.ring) == c.alive
    requires forall i :: i in c.nodes ==> c.nodes[i] == RingModel.NewRing(i, c.ring, c.ring[0])
    requires c.flight == multiset{}
    requires c.past == RingCluster.Chronicle(RingCluster.Held(c.ring[0]), [c.ring[0]], [], map[], map[], 0)
    ensures RingCluster.Fresh(c)
    ensures forall i :: i in c.nodes ==> (c.nodes[i].hasToken <==> i == c.ring[0])
  {
  }

  /** The token rings that the nodes build independently make up one ring with one token, held by the
      node with the lowest id. */
  lemma RingStartsFresh(peers: map<nat, seq<nat>>, k: nat)
    requires WellConfigured(peers) && k in peers
    ensures var c := RingAtStart(peers, k);
            && RingCluster.Fresh(c)
            && (forall i :: i in c.nodes ==> (c.nodes[i].hasToken <==> i == c.ring[0]))
            && forall i :: i in peers ==> c.ring[0] <= i
  {
    var c := RingAtStart(peers, k);
    assert |c.ring| > 0 && c.flight == multiset{} && c.alive == peers.Keys;
    assert c.past == RingCluster.Chronicle(RingCluster.Held(c.ring[0]), [c.ring[0]], [], map[], map[], 0);
    hide *;
    forall i | i in peers
      ensures i in c.nodes && c.nodes[i] == RingModel.NewRing(i, c.ring, c.ring[0]) && c.ring[0] <= i
    {
      NodeAtStart(peers, k, i);
    }
    NodeAtStart(peers, k, k);
    MakesFresh(c);
  }

  function ElectionAtStart(peers: map<nat, seq<nat>>): ElectionCluster.Cluster {
    ElectionCluster.Cluster(
      map i | i in peers :: ElectionModel.NewElection(i, peers[i]),
      peers.Keys, multiset{}, multiset{}, ElectionCluster.History({}, map[], {}, {}, {}))
  }

  function EnsembleAtStart(peers: map<nat, seq<nat>>): Ensemble.System {
    Ensemble.System(
      ElectionAtStart(peers),
      map i | i in peers :: LogModel.NewLog(i, peers[i]),
      multiset{}, multiset{}, map i | i in peers :: {}, {}, {}, map[], map[])
  }

  /** The elections and the logs of a well-configured cluster start in the states their run theorems
      begin with. */
  lemma EnsembleStartsFresh(peers: map<nat, seq<nat>>)
    requires WellConfigured(peers)
    ensures ElectionCluster.Fresh(ElectionAtStart(peers)) && Ensemble.Fresh(EnsembleAtStart(peers))
  {
  }
}
