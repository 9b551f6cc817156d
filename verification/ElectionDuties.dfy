/** What an election node must do, not only what it must not: when a vote is given, when a candidate gives
    up or wins, whom the log module is told to follow, and which messages leave. */
module ElectionDuties {
  import opened Types
  import opened Quorum
  import opened ElectionModel
  import opened ElectionCluster
  import opened ElectionSafety
  import opened Leadership

  // ---------- two more invariants ----------

  /** The vote a node remembers is one it has given in its current term. */
  ghost predicate Remembers(c: Cluster, i: nat)
    requires i in c.nodes
  {
    var s := c.nodes[i];
    s.votedFor != -1 ==> s.votedFor >= 0 && Vote(s.currentTerm, i, s.votedFor) in c.history.votes
  }

  /** Has the log module of node i been told, in a term up to this one, to follow this leader? */
  ghost predicate ToldToFollow(c: Cluster, i: nat, leader: nat, term: int) {
    exists k :: k <= term && FollowerCall(i, leader, k) in c.history.started
  }

  ghost predicate FollowsAsTold(c: Cluster, i: nat)
    requires i in c.nodes
  {
    var s := c.nodes[i];
    s.leaderID >= 0 && s.leaderID != i ==> ToldToFollow(c, i, s.leaderID, s.currentTerm)
  }

  ghost predicate Dutiful(c: Cluster) {
    forall i :: i in c.nodes ==> Remembers(c, i) && FollowsAsTold(c, i)
  }

  /** Nothing on record is lost, and a node's term never goes back. */
  ghost predicate Records(c: Cluster, c': Cluster, i: nat) {
    && i in c.nodes && i in c'.nodes && c'.nodes == c.nodes[i := c'.nodes[i]]
    && c.history.votes <= c'.history.votes && c.history.started <= c'.history.started
    && c.nodes[i].currentTerm <= c'.nodes[i].currentTerm
  }

  lemma OneNodeDutiful(c: Cluster, c': Cluster, i: nat)
    requires Dutiful(c) && Records(c, c', i) && Remembers(c', i) && FollowsAsTold(c', i)
    ensures Dutiful(c')
  {
    forall j | j in c'.nodes ensures Remembers(c', j) && FollowsAsTold(c', j) {
      if j != i {
        assert Remembers(c, j) && FollowsAsTold(c, j);
        var s := c.nodes[j];
        if s.leaderID >= 0 && s.leaderID != j {
          var k :| k <= s.currentTerm && FollowerCall(j, s.leaderID, k) in c.history.started;
          assert FollowerCall(j, s.leaderID, k) in c'.history.started;
        }
      }
    }
  }

  lemma StillTold(c: Cluster, c': Cluster, i: nat)
    requires i in c.nodes && FollowsAsTold(c, i) && Records(c, c', i)
    requires c'.nodes[i].leaderID == c.nodes[i].leaderID || c'.nodes[i].leaderID == -1 || c'.nodes[i].leaderID == i
    ensures FollowsAsTold(c', i)
  {
    var s, s' := c.nodes[i], c'.nodes[i];
    if s'.leaderID >= 0 && s'.leaderID != i {
      var k :| k <= s.currentTerm && FollowerCall(i, s.leaderID, k) in c.history.started;
      assert FollowerCall(i, s'.leaderID, k) in c'.history.started;
    }
  }

  lemma DeliverDutiful(c: Cluster, p: Packet)
    requires Inv(c) && Dutiful(c) && Enabled(c, Deliver(p))
    ensures Dutiful(Step(c, Deliver(p)))
  {
    hide Step, OneTicket, VotesKept, BallotsSound, CandidatesSound, WinnersSound, FollowsAsTold;
    var c', i := Step(c, Deliver(p)), p.dst;
    assert Remembers(c, i) && PacketSound(c, p);
    StepGrows(c, Deliver(p));
    StepCalls(c, Deliver(p));
    match p.msg {
      case Ask(_) => AskStep(c, p); StillTold(c, c', i);
      case Answer(_) => AnswerStep(c, p); StillTold(c, c', i);
      case Beat(_) => BeatStep(c, p); BeatTells(c, p);
    }
    OneNodeDutiful(c, c', i);
  }

  lemma BeatTells(c: Cluster, p: Packet)
    requires Inv(c) && Dutiful(c) && Enabled(c, Deliver(p)) && p.msg.Beat?
    ensures FollowsAsTold(Step(c, Deliver(p)), p.dst)
  {
    hide Step, Inv;
    var c', i, hb := Step(c, Deliver(p)), p.dst, p.msg.beat;
    BeatStep(c, p);
    StepGrows(c, Deliver(p));
    StepCalls(c, Deliver(p));
    var s := c.nodes[i];
    assert FollowsAsTold(c, i);
    if hb.term < s.currentTerm || (s.role == Follower && s.leaderID == hb.leaderID) {
      StillTold(c, c', i);
    } else {
      assert FollowerCall(i, hb.leaderID, hb.term) in c'.history.started;
    }
  }

  lemma ClockDutiful(c: Cluster, i: nat, timedOut: bool)
    requires Inv(c) && Dutiful(c) && Enabled(c, Clock(i, timedOut))
    ensures Dutiful(Step(c, Clock(i, timedOut)))
  {
    hide Step, OneTicket, VotesKept, BallotsSound, CandidatesSound, WinnersSound, NetSound, FollowsAsTold;
    var c' := Step(c, Clock(i, timedOut));
    assert Remembers(c, i) && FollowsAsTold(c, i);
    StepGrows(c, Clock(i, timedOut));
    StepCalls(c, Clock(i, timedOut));
    ClockStep(c, i, timedOut);
    StillTold(c, c', i);
    OneNodeDutiful(c, c', i);
  }

  lemma RestDutiful(c: Cluster, a: Action)
    requires Dutiful(c) && Enabled(c, a) && (a.Lose? || a.Crash? || a.RunCall?)
    ensures Dutiful(Step(c, a))
  {
    hide Step;
    RestStep(c, a);
    var c' := Step(c, a);
    forall i | i in c'.nodes ensures Remembers(c', i) && FollowsAsTold(c', i) {
      assert Remembers(c, i) && FollowsAsTold(c, i);
    }
  }

  lemma StepDutiful(c: Cluster, a: Action)
    requires Inv(c) && Dutiful(c) && Enabled(c, a)
    ensures Dutiful(Step(c, a))
  {
    hide Inv, Dutiful, Step;
    match a
    case Clock(i, timedOut) => ClockDutiful(c, i, timedOut);
    case Deliver(p) => DeliverDutiful(c, p);
    case _ => RestDutiful(c, a);
  }

  lemma {:induction false} RunDutiful(c: Cluster, run: seq<Action>)
    requires Inv(c) && Dutiful(c) && Possible(c, run)
    ensures Dutiful(Exec(c, run))
    decreases |run|
  {
    hide Inv, Dutiful, Step, Enabled;
    if run != [] {
      StepKeeps(c, run[0]);
      StepDutiful(c, run[0]);
      RunDutiful(Step(c, run[0]), run[1..]);
    }
  }

  lemma ReachedIsDutiful(c0: Cluster, run: seq<Action>, c: Cluster)
    requires Reached(c0, run, c)
    ensures Inv(c) && Dutiful(c)
  {
    hide Inv;
    FreshIsSound(c0);
    ReachedIsSound(c0, run, c);
    RunDutiful(c0, run);
  }

  /** Whom a node names as its leader, its log module has been told to follow, no later than in the node's term. */
  lemma LeaderWasAnnounced(c0: Cluster, run: seq<Action>, c: Cluster, i: nat, l: nat)
    requires Reached(c0, run, c) && i in c.nodes && c.nodes[i].leaderID == l && l != i
    ensures exists k :: k <= c.nodes[i].currentTerm && FollowerCall(i, l, k) in c.history.started
  {
    hide Reached, Inv;
    ReachedIsDutiful(c0, run, c);
    assert FollowsAsTold(c, i);
  }

  /** What every election node begins with. */
  lemma FreshElection(c: Cluster, i: nat)
    requires Fresh(c) && i in c.nodes
    ensures var s := c.nodes[i];
            && s.id == i && s.currentTerm == 0 && s.votedFor == -1 && s.leaderID == -1
            && s.role == Follower && s.voteCount == 0 && Members(s.peers) == c.nodes.Keys - {i}
  {
  }

  // ---------- votes ----------

  function Max(a: int, b: int): int {
    if a < b then b else a
  }

  /** Has voter i given its vote of this term to someone else? */
  ghost predicate GaveElsewhere(c: Cluster, i: nat, term: int, candidate: nat) {
    exists v :: v in c.history.votes && v.voter == i && v.term == term && v.candidate != candidate
  }

  /** A vote is given if and only if the request is not old and the voter has given its vote of that term to
      nobody else, ever. The answer carries the voter's new term, and nothing else leaves. */
  lemma VoteIsGivenIff(c0: Cluster, run: seq<Action>, c: Cluster, p: Packet)
    requires Reached(c0, run, c) && Enabled(c, Deliver(p)) && p.msg.Ask?
    ensures var i, req, c' := p.dst, p.msg.request, Step(c, Deliver(p));
            var s, s' := c.nodes[i], c'.nodes[i];
            var given := req.term >= s.currentTerm && !GaveElsewhere(c, i, req.term, req.candidateID);
            var answer := VoteResponse(Max(s.currentTerm, req.term), given, i);
            && (forall q :: c'.net[q] == (c.net - multiset{p})[q] +
                              if q == Packet(req.candidateID, Answer(answer)) then 1 else 0)
            && (Vote(req.term, i, req.candidateID) in c'.history.votes <==>
                  given || Vote(req.term, i, req.candidateID) in c.history.votes)
            && (given ==> s'.currentTerm == req.term && s'.votedFor == req.candidateID)
            && (!given ==> s' == s)
            && s'.role == (if req.term > s.currentTerm then Follower else s.role)
            && s'.leaderID == (if req.term > s.currentTerm then -1 else s.leaderID)
            && s'.voteCount == s.voteCount
            && c'.calls == c.calls
  {
    hide Reached, Step, OneTicket, NetSound, BallotsSound, CandidatesSound, WinnersSound;
    ReachedIsDutiful(c0, run, c);
    AskStep(c, p);
    StepCalls(c, Deliver(p));
    var i, req := p.dst, p.msg.request;
    var s := c.nodes[i];
    assert Remembers(c, i) && s.id == i;
    if s.votedFor != -1 && req.term == s.currentTerm {
      var v := Vote(s.currentTerm, i, s.votedFor);
      assert v in c.history.votes;
    }
  }

  // ---------- candidates ----------

  /** A candidate that hears of a higher term follows in that term. */
  lemma OvertakenGivesUp(c: Cluster, p: Packet)
    requires Enabled(c, Deliver(p)) && p.msg.Answer?
    requires c.nodes[p.dst].role == Candidate && p.msg.response.term > c.nodes[p.dst].currentTerm
    ensures var c' := Step(c, Deliver(p));
            && c'.nodes[p.dst] == c.nodes[p.dst].(role := Follower, currentTerm := p.msg.response.term,
                                                  votedFor := -1, voteCount := 0)
            && c'.net == c.net - multiset{p} && c'.calls == c.calls
  {
  }

  /** Past its term, a node that has not won it cannot win it any more. */
  lemma StepStaysLost(c: Cluster, a: Action, i: nat, t: int)
    requires Enabled(c, a) && i in c.nodes && c.nodes[i].currentTerm > t && Ballot(t, i) !in c.history.won
    ensures var c' := Step(c, a); i in c'.nodes && c'.nodes[i].currentTerm > t && Ballot(t, i) !in c'.history.won
  {
    hide Step;
    StepGrows(c, a);
    match a
    case Clock(j, timedOut) => ClockStep(c, j, timedOut);
    case Deliver(p) =>
      match p.msg {
        case Ask(_) => AskStep(c, p);
        case Answer(_) => AnswerStep(c, p);
        case Beat(_) => BeatStep(c, p);
      }
    case _ => RestStep(c, a);
  }

  lemma {:induction false} StaysLost(c: Cluster, run: seq<Action>, i: nat, t: int)
    requires Possible(c, run) && i in c.nodes && c.nodes[i].currentTerm > t && Ballot(t, i) !in c.history.won
    ensures Ballot(t, i) !in Exec(c, run).history.won
    decreases |run|
  {
    hide Step, Enabled;
    if run != [] {
      StepStaysLost(c, run[0], i, t);
      StaysLost(Step(c, run[0]), run[1..], i, t);
    }
  }

  /** A candidate of term t that is answered from a higher term follows in that term, and in no continuation
      of the run does it win term t. */
  lemma OvertakenNeverWins(c0: Cluster, run: seq<Action>, c: Cluster, p: Packet, more: seq<Action>)
    requires Reached(c0, run, c) && Enabled(c, Deliver(p)) && p.msg.Answer?
    requires c.nodes[p.dst].role == Candidate && p.msg.response.term > c.nodes[p.dst].currentTerm
    requires Possible(Step(c, Deliver(p)), more)
    ensures var i, t, u := p.dst, c.nodes[p.dst].currentTerm, p.msg.response.term;
            var c' := Step(c, Deliver(p));
            && c'.nodes[i].role == Follower && c'.nodes[i].currentTerm == u && c'.nodes[i].votedFor == -1
            && Ballot(t, i) !in Exec(c', more).history.won
  {
    hide Reached, Step, OneTicket, NetSound, BallotsSound, WinnersSound, Possible, Exec;
    ReachedIsSound(c0, run, c);
    AnswerStep(c, p);
    OvertakenGivesUp(c, p);
    assert CandidateSound(c, p.dst);
    StaysLost(Step(c, Deliver(p)), more, p.dst, c.nodes[p.dst].currentTerm);
  }

  /** A candidate wins with exactly the answer that makes the distinct voters it has counted a majority of the
      cluster; it then leads, and its log module is told once. No other answer of its term or an earlier one
      does anything but add a voter. */
  lemma WinsWithMajorityIff(c0: Cluster, run: seq<Action>, c: Cluster, p: Packet)
    requires Reached(c0, run, c) && Enabled(c, Deliver(p)) && p.msg.Answer?
    requires c.nodes[p.dst].role != Candidate || p.msg.response.term <= c.nodes[p.dst].currentTerm
    ensures var i, resp, c' := p.dst, p.msg.response, Step(c, Deliver(p));
            var s, b := c.nodes[i], Ballot(c.nodes[i].currentTerm, i);
            var counts := s.role == Candidate && resp.term == s.currentTerm && resp.voteGranted;
            var voters := if counts then Counted(c, b) + {resp.voterID} else Counted(c, b);
            var wins := counts && |voters| >= Majority(|c.nodes.Keys|);
            && Counted(c', b) == voters
            && c'.nodes[i] == (if !counts then s
                               else if wins then s.(voteCount := |voters|, role := Leader, leaderID := i)
                               else s.(voteCount := |voters|))
            && (b in c'.history.won <==> wins || b in c.history.won)
            && c'.calls == (if wins then c.calls + multiset{LeaderCall(i, s.currentTerm)} else c.calls)
            && c'.net == c.net - multiset{p}
  {
    hide Reached, Step, OneTicket, NetSound, BallotsSound, WinnersSound, VotesKept;
    ReachedIsSound(c0, run, c);
    AnswerStep(c, p);
    StepCalls(c, Deliver(p));
    if c.nodes[p.dst].role == Candidate {
      assert CandidateSound(c, p.dst);
      if p.msg.response.voteGranted { CountIsNews(c, p); }
    }
  }

  lemma CountIsNews(c: Cluster, p: Packet)
    requires Inv(c) && Enabled(c, Deliver(p)) && p.msg.Answer? && p.msg.response.voteGranted
    ensures p.msg.response.voterID !in Counted(c, Ballot(p.msg.response.term, p.dst))
  {
    hide Inv;
    AnswerIsNews(c, p);
  }

  // ---------- heartbeats and timeouts ----------

  /** After a heartbeat that is not old, the node follows its sender in its term, remembering its vote only if
      the term is not new, and the log module is told unless the node followed that leader already. An old
      heartbeat does nothing. */
  lemma HeartbeatIsFollowed(c: Cluster, p: Packet)
    requires Enabled(c, Deliver(p)) && p.msg.Beat?
    ensures var i, hb, c' := p.dst, p.msg.beat, Step(c, Deliver(p));
            var s, s' := c.nodes[i], c'.nodes[i];
            var stale := hb.term < s.currentTerm;
            && (stale ==> s' == s)
            && (!stale ==>
                  && s'.role == Follower && s'.currentTerm == hb.term && s'.leaderID == hb.leaderID
                  && s'.votedFor == (if hb.term > s.currentTerm then -1 else s.votedFor) && s'.voteCount == 0)
            && c'.calls == (if stale || (s.role == Follower && s.leaderID == hb.leaderID) then c.calls
                            else c.calls + multiset{FollowerCall(i, hb.leaderID, hb.term)})
            && c'.net == c.net - multiset{p}
  {
  }

  /** At a leader's tick, a heartbeat of its term is on its way to every other node. */
  lemma LeaderBeats(c0: Cluster, run: seq<Action>, c: Cluster, i: nat, timedOut: bool)
    requires Reached(c0, run, c) && Enabled(c, Clock(i, timedOut)) && c.nodes[i].role == Leader
    ensures var c', beat := Step(c, Clock(i, timedOut)), Beat(Heartbeat(c.nodes[i].currentTerm, i));
            && c'.nodes == c.nodes && c'.calls == c.calls
            && forall q :: c'.net[q] == c.net[q] + if q.dst in c.nodes && q.dst != i && q.msg == beat then 1 else 0
  {
    ReachedIsSound(c0, run, c);
    assert c.nodes[i].id == i;
    hide Reached, Inv, Step;
    ClockStep(c, i, timedOut);
    StepCalls(c, Clock(i, timedOut));
  }

  /** When the timeout of any other node has passed, it stands in the next term and votes for itself; when it
      has not, nothing happens. */
  lemma OthersStand(c0: Cluster, run: seq<Action>, c: Cluster, i: nat, timedOut: bool)
    requires Reached(c0, run, c) && Enabled(c, Clock(i, timedOut)) && c.nodes[i].role != Leader
    ensures var c', s := Step(c, Clock(i, timedOut)), c.nodes[i];
            && c'.calls == c.calls
            && (!timedOut ==> c'.nodes == c.nodes && c'.net == c.net)
            && (timedOut ==>
                  && c'.nodes[i] == s.(currentTerm := s.currentTerm + 1, role := Candidate, votedFor := i,
                                       voteCount := 1)
                  && Vote(s.currentTerm + 1, i, i) in c'.history.votes)
  {
    ReachedIsSound(c0, run, c);
    assert c.nodes[i].id == i;
    hide Reached, Inv, Step, Broadcast;
    ClockStep(c, i, timedOut);
    StepCalls(c, Clock(i, timedOut));
  }

  /** It asks every other node for its vote, and sends nothing else. */
  lemma OthersAsk(c0: Cluster, run: seq<Action>, c: Cluster, i: nat)
    requires Reached(c0, run, c) && Enabled(c, Clock(i, true)) && c.nodes[i].role != Leader
    ensures var ask := Ask(VoteRequest(c.nodes[i].currentTerm + 1, i));
            forall q :: Step(c, Clock(i, true)).net[q] ==
                        c.net[q] + if q.dst in c.nodes && q.dst != i && q.msg == ask then 1 else 0
  {
    ReachedIsSound(c0, run, c);
    assert c.nodes[i].id == i;
    hide Reached, Inv, Step;
    ClockStep(c, i, true);
  }
}
