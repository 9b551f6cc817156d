/** How an epoch comes about: the winner's BecomeLeader callback turns a quiet system into one that
    meets every hypothesis of the epoch theorems. */
module EpochStart {
  import opened Types
  import opened Quorum
  import opened LogModel
  import opened LogFacts
  import opened Ensemble
  import opened EpochLog
  import opened Epoch
  import opened Counterexamples
  import EC = ElectionCluster
  import LM = LogMatching

  lemma NewLeaderNode(n: LogState, l: seq<LogEntry>, t: int)
    requires Valid(n) && Applied(n, l)
    ensures var n' := BecomeLeader(n, t);
            && Valid(n') && Applied(n', l) && n'.isLeader && n'.currentTerm == t
            && n'.log == n.log && n'.id == n.id && n'.peers == n.peers
            && forall p :: p in n.peers ==>
                 p in n'.nextIndex && n'.nextIndex[p] == |n.log| && p in n'.matchIndex && n'.matchIndex[p] == -1
  {
    BecomeLeaderKeepsValid(n, t);
    forall p | p in n.peers
      ensures var n' := BecomeLeader(n, t);
              p in n'.nextIndex && n'.nextIndex[p] == |n.log| && p in n'.matchIndex && n'.matchIndex[p] == -1
    {
      ResetAt(n.nextIndex, n.peers, |n.log|, p);
      ResetAt(n.matchIndex, n.peers, -1, p);
    }
  }

  /** What an epoch needs beyond what every guarded run provides: all terms are below t, what is committed
      anywhere is in the winner's log and applied as the table says, no request is out, and the answers on
      their way to the winner are of earlier terms. */
  ghost predicate Quiet(s: System, leader: nat, t: int) {
    && leader in s.logs && leader in s.open
    && (forall i :: i in s.logs ==> QuietNode(s.logs[i], s.logs[leader].log, t))
    && s.letters == multiset{}
    && (forall k :: k in s.acks && k.dst == leader ==>
          k.resp.term <= t && (k.resp.success ==> k.resp.term < t))
    && s.open[leader] == {} && (forall r :: r in s.finishing ==> r.node != leader)
  }

  ghost predicate QuietNode(n: LogState, l: seq<LogEntry>, t: int) {
    && n.currentTerm <= t && TermsAscend(n.log) && (forall k :: 0 <= k < |n.log| ==> n.log[k].term < t)
    && Applied(n, l)
  }

  /** Guarded runs provide the rest: who the nodes are, that they are valid, and that their logs match. */
  lemma QuietIsReady(s: System, leader: nat, t: int)
    requires LM.Inv(s) && Quiet(s, leader, t)
    ensures Ready(s, leader, t)
  {
    hide LM.Inv, LM.NodeWired, LM.Fits, LM.HelmSound, Match, Applied, TermsAscend, Valid, Distinct;
    forall i | i in s.logs
      ensures s.logs[i].id == i && Valid(s.logs[i]) && Match(s.logs[i].log, s.logs[leader].log)
    {
      WiredNode(s, i);
      LM.NodeParts(s, leader);
      LM.FitsMatch(s.logs[i].log, s.logs[leader].log, s.canon);
    }
    WiredNode(s, leader);
    forall k | k in s.acks && k.dst == leader ensures OldAnswer(s.logs.Keys, leader, t, k.resp) {
      SoundAck(s, k);
    }
  }

  lemma SoundAck(s: System, k: Ack)
    requires LM.Inv(s) && k in s.acks
    ensures LM.AckSound(s.logs.Keys, k)
  {
    hide LM.Fits, LM.HelmSound, LM.Wired, LM.CanonSound, LM.LettersSound;
  }

  lemma WiredNode(s: System, i: nat)
    requires LM.Inv(s) && i in s.logs
    ensures s.logs[i].id == i && Valid(s.logs[i]) && LM.Fits(s.logs[i].log, s.canon)
    ensures Distinct(s.logs[i].peers) && Members(s.logs[i].peers) == s.logs.Keys - {i}
  {
    hide LM.Inv, LM.Fits, LM.HelmSound;
    LM.NodeParts(s, i);
  }

  lemma ReadyBegins(s: System, leader: nat, t: int)
    requires Ready(s, leader, t) && EC.LeaderCall(leader, t) in s.election.calls
    ensures Enabled(s, Notify(EC.LeaderCall(leader, t)))
    ensures Starts(Step(s, Notify(EC.LeaderCall(leader, t))), leader, t)
  {
    hide Step, BecomeLeader, Applied, Match, TermsAscend, Valid, Distinct;
    NotifyStep(s, EC.LeaderCall(leader, t));
    NewLeaderNode(s.logs[leader], s.logs[leader].log, t);
  }

  /** Wherever a guarded run has led: when the winner of term t is told so in a quiet system, its epoch begins. */
  lemma EpochBegins(s0: System, run: seq<Action>, s: System, leader: nat, t: int)
    requires LM.Reached(s0, run, s) && Quiet(s, leader, t) && EC.LeaderCall(leader, t) in s.election.calls
    ensures Enabled(s, Notify(EC.LeaderCall(leader, t)))
    ensures Starts(Step(s, Notify(EC.LeaderCall(leader, t))), leader, t)
  {
    hide *;
    LM.ReachedIsSound(s0, run, s);
    QuietIsReady(s, leader, t);
    ReadyBegins(s, leader, t);
  }

  /** Three fresh nodes reach the beginning of an epoch without breaking the guard. */
  lemma EpochExists() returns (s: System)
    ensures Fresh(Trio()) && Reachable(true, Trio(), s) && Starts(s, 0, 1)
  {
    hide Reachable, EC.Step, Step, Fresh;
    var s0 := Trio();
    TrioIsFresh();
    assert s0.election.nodes.Keys == {0, 1, 2} && s0.logs.Keys == {0, 1, 2};
    s := WinElection(true, s0, s0, 0, 1, 1);
    FreshStarts(s0, s);
  }

  lemma FreshStarts(s0: System, s: System)
    requires s0 == Trio() && s.logs == s0.logs[0 := BecomeLeader(s0.logs[0], 1)]
    requires s.open == s0.open && s.letters == s0.letters && s.acks == s0.acks && s.finishing == s0.finishing
    ensures Starts(s, 0, 1)
  {
    NewLeaderNode(s0.logs[0], [], 1);
  }
}
