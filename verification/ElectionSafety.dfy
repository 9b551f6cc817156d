/** At most one leader per term, in every run, and what follows from it. */
module ElectionSafety {
  import opened Types
  import opened Quorum
  import opened ElectionModel
  import opened ElectionCluster

  ghost predicate Shape(c: Cluster) {
    forall i :: i in c.nodes ==>
      && c.nodes[i].id == i
      && |c.nodes[i].peers| + 1 == |c.nodes.Keys|
      && c.nodes[i].currentTerm >= 0
      && c.nodes[i].votedFor >= -1
  }

  /** Votes are irrevocable: none lies beyond its voter's term, and the one of the voter's current
      term is the one it remembers. */
  ghost predicate VotesKept(c: Cluster) {
    && (forall v :: v in c.history.votes ==>
          && v.voter in c.nodes && v.candidate in c.nodes
          && v.term <= c.nodes[v.voter].currentTerm
          && v.term <= c.nodes[v.candidate].currentTerm
          && (v.term == c.nodes[v.voter].currentTerm ==> c.nodes[v.voter].votedFor == v.candidate))
    && (forall v, w :: v in c.history.votes && w in c.history.votes && v.term == w.term && v.voter == w.voter ==>
          v.candidate == w.candidate)
  }

  function Counted(c: Cluster, b: Ballot): set<nat> {
    if b in c.history.ballots then c.history.ballots[b] else {}
  }

  /** A voter's answer to one candidacy is asked for, in flight, or counted: never twice. */
  function Tickets(c: Cluster, b: Ballot, voter: nat): nat {
    c.net[Packet(voter, Ask(VoteRequest(b.term, b.candidate)))]
    + c.net[Packet(b.candidate, Answer(VoteResponse(b.term, true, voter)))]
    + if voter in Counted(c, b) then 1 else 0
  }

  ghost predicate OneTicket(c: Cluster) {
    forall b, voter :: Tickets(c, b, voter) <= 1
  }

  ghost predicate PacketSound(c: Cluster, p: Packet) {
    match p.msg
    case Ask(req) => p.dst in c.nodes && req.candidateID in c.nodes && p.dst != req.candidateID
                     && req.term <= c.nodes[req.candidateID].currentTerm
    case Answer(resp) => p.dst in c.nodes && resp.voterID in c.nodes && p.dst != resp.voterID
                         && (resp.voteGranted ==> Vote(resp.term, resp.voterID, p.dst) in c.history.votes)
    case Beat(hb) => p.dst in c.nodes && p.dst != hb.leaderID && Ballot(hb.term, hb.leaderID) in c.history.won
  }

  ghost predicate NetSound(c: Cluster) {
    forall p :: p in c.net ==> PacketSound(c, p)
  }

  /** Every counted voter did vote that way. */
  ghost predicate BallotsSound(c: Cluster) {
    forall b :: b in c.history.ballots ==>
      && b.candidate in c.nodes && 1 <= b.term <= c.nodes[b.candidate].currentTerm
      && forall v :: v in c.history.ballots[b] ==> Vote(b.term, v, b.candidate) in c.history.votes
  }

  /** The bare counter of a candidate counts distinct voters, and it has not won yet. */
  ghost predicate CandidatesSound(c: Cluster) {
    forall i :: i in c.nodes && c.nodes[i].role == Candidate ==>
      && Ballot(c.nodes[i].currentTerm, i) in c.history.ballots
      && c.nodes[i].voteCount == |c.history.ballots[Ballot(c.nodes[i].currentTerm, i)]|
      && Ballot(c.nodes[i].currentTerm, i) !in c.history.won
  }

  ghost predicate WinnersSound(c: Cluster) {
    && (forall b :: b in c.history.won ==>
          b in c.history.ballots && |c.history.ballots[b]| >= Majority(|c.nodes.Keys|))
    && (forall i :: i in c.nodes && c.nodes[i].role == Leader ==>
          Ballot(c.nodes[i].currentTerm, i) in c.history.won && c.nodes[i].leaderID == i)
  }

  ghost predicate Inv(c: Cluster) {
    Shape(c) && VotesKept(c) && OneTicket(c) && NetSound(c) && BallotsSound(c) && CandidatesSound(c) && WinnersSound(c)
  }

  lemma FreshIsSound(c: Cluster)
    requires Fresh(c)
    ensures Inv(c)
  {
    forall i | i in c.nodes ensures |c.nodes[i].peers| + 1 == |c.nodes.Keys| {
      DistinctSize(c.nodes[i].peers);
      assert c.nodes.Keys == (c.nodes.Keys - {i}) + {i};
    }
  }

  // ---------- preservation ----------

  /** Everything an action of node i leaves alone, and everything that only grows. */
  ghost predicate OneActs(c: Cluster, c': Cluster, i: nat) {
    && i in c.nodes && i in c'.nodes && c'.nodes == c.nodes[i := c'.nodes[i]]
    && c'.nodes[i].id == c.nodes[i].id && c'.nodes[i].peers == c.nodes[i].peers
    && c'.nodes[i].currentTerm >= c.nodes[i].currentTerm
    && c.history.votes <= c'.history.votes && c.history.won <= c'.history.won
    && c.history.ballots.Keys <= c'.history.ballots.Keys
    && (forall b :: b in c.history.ballots ==> c.history.ballots[b] <= c'.history.ballots[b])
    && (forall b :: b != Ballot(c'.nodes[i].currentTerm, i) ==>
          && (b in c'.history.won ==> b in c.history.won)
          && (b in c'.history.ballots ==> b in c.history.ballots && c'.history.ballots[b] == c.history.ballots[b]))
  }

  ghost predicate VotesWell(c: Cluster, c': Cluster, i: nat)
    requires OneActs(c, c', i)
  {
    && c'.nodes[i].votedFor >= -1
    && (c'.nodes[i].currentTerm == c.nodes[i].currentTerm && c.nodes[i].votedFor != -1 ==>
          c'.nodes[i].votedFor == c.nodes[i].votedFor)
    && forall v :: v in c'.history.votes && v !in c.history.votes ==>
         && v.voter == i && v.term == c'.nodes[i].currentTerm && v.candidate == c'.nodes[i].votedFor
         && v.candidate in c.nodes && v.term <= c'.nodes[v.candidate].currentTerm
  }

  ghost predicate SendsWell(c: Cluster, c': Cluster) {
    forall p :: p in c'.net && p !in c.net ==> PacketSound(c', p)
  }

  /** Node i's counter, its ballot of the new term, and its role fit together after the turn. */
  ghost predicate CountsWell(c: Cluster, c': Cluster, i: nat)
    requires OneActs(c, c', i)
  {
    var b := Ballot(c'.nodes[i].currentTerm, i);
    && (b in c'.history.ballots ==> b.term >= 1)
    && (b in c'.history.ballots ==> forall v :: v in c'.history.ballots[b] ==> Vote(b.term, v, i) in c'.history.votes)
    && CandidateSound(c', i)
    && (b in c'.history.won && b !in c.history.won ==>
          b in c'.history.ballots && |c'.history.ballots[b]| >= Majority(|c.nodes.Keys|))
    && (c'.nodes[i].role == Leader ==> b in c'.history.won && c'.nodes[i].leaderID == i)
  }

  ghost predicate CandidateSound(c: Cluster, i: nat)
    requires i in c.nodes
  {
    c.nodes[i].role == Candidate ==>
      && Ballot(c.nodes[i].currentTerm, i) in c.history.ballots
      && c.nodes[i].voteCount == |c.history.ballots[Ballot(c.nodes[i].currentTerm, i)]|
      && Ballot(c.nodes[i].currentTerm, i) !in c.history.won
  }

  /** Votes cast by node i in its new term, for the candidate it now remembers, keep votes irrevocable. */
  lemma VotesStayKept(c: Cluster, c': Cluster, i: nat)
    requires Shape(c) && VotesKept(c) && OneActs(c, c', i) && VotesWell(c, c', i)
    ensures Shape(c') && VotesKept(c')
  {
  }

  lemma NetStaysSound(c: Cluster, c': Cluster, i: nat)
    requires NetSound(c) && OneActs(c, c', i) && SendsWell(c, c')
    ensures NetSound(c')
  {
    forall p | p in c'.net ensures PacketSound(c', p) {
      assert p in c.net ==> PacketSound(c, p);
    }
  }

  lemma BallotsStaySound(c: Cluster, c': Cluster, i: nat)
    requires BallotsSound(c) && OneActs(c, c', i) && CountsWell(c, c', i)
    ensures BallotsSound(c')
  {
  }

  lemma CandidatesStaySound(c: Cluster, c': Cluster, i: nat)
    requires CandidatesSound(c) && OneActs(c, c', i) && CountsWell(c, c', i)
    ensures CandidatesSound(c')
  {
    forall j | j in c'.nodes && c'.nodes[j].role == Candidate ensures CandidateSound(c', j) {
      if j != i {
        var b := Ballot(c'.nodes[j].currentTerm, j);
        assert b in c.history.ballots && b in c'.history.ballots;
      }
    }
  }

  lemma WinnersStaySound(c: Cluster, c': Cluster, i: nat)
    requires WinnersSound(c) && OneActs(c, c', i) && CountsWell(c, c', i)
    ensures WinnersSound(c')
  {
    assert c'.nodes.Keys == c.nodes.Keys;
    forall b | b in c'.history.won
      ensures b in c'.history.ballots && |c'.history.ballots[b]| >= Majority(|c'.nodes.Keys|)
    {
      if b in c.history.won {
        SubsetSize(c.history.ballots[b], c'.history.ballots[b]);
      }
    }
  }

  lemma TurnKeeps(c: Cluster, c': Cluster, i: nat)
    requires Inv(c) && OneTicket(c')
    requires OneActs(c, c', i) && VotesWell(c, c', i) && SendsWell(c, c') && CountsWell(c, c', i)
    ensures Inv(c')
  {
    hide OneTicket, OneActs, VotesWell, SendsWell, CountsWell;
    VotesStayKept(c, c', i);
    NetStaysSound(c, c', i);
    BallotsStaySound(c, c', i);
    CandidatesStaySound(c, c', i);
    WinnersStaySound(c, c', i);
  }

  /** The new state after a tick, field by field. */
  lemma ClockStep(c: Cluster, i: nat, timedOut: bool)
    requires Enabled(c, Clock(i, timedOut))
    ensures var c' := Step(c, Clock(i, timedOut));
            var s, b := c.nodes[i], Ballot(c.nodes[i].currentTerm + 1, i);
            var opens := s.role != Leader && timedOut;
            && c'.nodes == c.nodes[i := if opens then StartElection(s).state else s]
            && c'.net == c.net + Sent(c, i, Tick(s, timedOut).effect)
            && c'.history.votes == (if opens then c.history.votes + {Vote(b.term, i, i)} else c.history.votes)
            && c'.history.ballots == (if opens then c.history.ballots[b := {i}] else c.history.ballots)
            && c'.history.won == c.history.won
  {
  }

  lemma ClockKeepsTickets(c: Cluster, i: nat, timedOut: bool)
    requires Inv(c) && Enabled(c, Clock(i, timedOut))
    ensures OneTicket(Step(c, Clock(i, timedOut)))
  {
    hide Step;
    ClockStep(c, i, timedOut);
    var c' := Step(c, Clock(i, timedOut));
    var newBallot := Ballot(c.nodes[i].currentTerm + 1, i);
    forall b, voter ensures Tickets(c', b, voter) <= 1 {
      assert Tickets(c, b, voter) <= 1;
      if b == newBallot {
        assert PacketSound(c, Packet(voter, Ask(VoteRequest(b.term, b.candidate))))
          || Packet(voter, Ask(VoteRequest(b.term, b.candidate))) !in c.net;
        assert PacketSound(c, Packet(b.candidate, Answer(VoteResponse(b.term, true, voter))))
          || Packet(b.candidate, Answer(VoteResponse(b.term, true, voter))) !in c.net;
        assert Tickets(c, b, voter) == 0;
      }
    }
  }

  lemma ClockActs(c: Cluster, i: nat, timedOut: bool)
    requires Inv(c) && Enabled(c, Clock(i, timedOut))
    ensures OneActs(c, Step(c, Clock(i, timedOut)), i)
  {
    hide Step, Tickets, OneTicket, VotesKept, NetSound, WinnersSound, CandidatesSound;
    ClockStep(c, i, timedOut);
  }

  lemma ClockVotes(c: Cluster, i: nat, timedOut: bool)
    requires Inv(c) && Enabled(c, Clock(i, timedOut))
    ensures var c' := Step(c, Clock(i, timedOut)); OneActs(c, c', i) && VotesWell(c, c', i)
  {
    hide Step, Tickets, OneTicket, BallotsSound, CandidatesSound, WinnersSound, OneActs;
    ClockStep(c, i, timedOut);
    ClockActs(c, i, timedOut);
  }

  lemma ClockSends(c: Cluster, i: nat, timedOut: bool)
    requires Inv(c) && Enabled(c, Clock(i, timedOut))
    ensures var c' := Step(c, Clock(i, timedOut)); SendsWell(c, c')
  {
    hide Step, Tickets, OneTicket, BallotsSound, CandidatesSound, OneActs;
    ClockStep(c, i, timedOut);
  }

  lemma ClockCounts(c: Cluster, i: nat, timedOut: bool)
    requires Inv(c) && Enabled(c, Clock(i, timedOut))
    ensures var c' := Step(c, Clock(i, timedOut)); OneActs(c, c', i) && CountsWell(c, c', i)
  {
    hide Step, Tickets, OneTicket, VotesKept, OneActs;
    ClockStep(c, i, timedOut);
    ClockActs(c, i, timedOut);
  }

  lemma ClockKeeps(c: Cluster, i: nat, timedOut: bool)
    requires Inv(c) && Enabled(c, Clock(i, timedOut))
    ensures Inv(Step(c, Clock(i, timedOut)))
  {
    hide Inv, Step, OneTicket, OneActs, VotesWell, SendsWell, CountsWell;
    ClockKeepsTickets(c, i, timedOut);
    ClockVotes(c, i, timedOut);
    ClockSends(c, i, timedOut);
    ClockCounts(c, i, timedOut);
    TurnKeeps(c, Step(c, Clock(i, timedOut)), i);
  }

  /** The new state after a vote request, field by field. */
  lemma AskStep(c: Cluster, p: Packet)
    requires Enabled(c, Deliver(p)) && p.msg.Ask?
    ensures var c' := Step(c, Deliver(p));
            var t := HandleVoteRequest(c.nodes[p.dst], p.msg.request);
            && c'.nodes == c.nodes[p.dst := t.state]
            && c'.net == c.net - multiset{p} + multiset{Packet(p.msg.request.candidateID, Answer(t.effect.response))}
            && c'.history.votes == (if t.effect.response.voteGranted
                                    then c.history.votes + {Vote(p.msg.request.term, p.dst, p.msg.request.candidateID)}
                                    else c.history.votes)
            && c'.history.ballots == c.history.ballots
            && c'.history.won == c.history.won
  {
  }

  lemma AskKeepsTickets(c: Cluster, p: Packet)
    requires Inv(c) && Enabled(c, Deliver(p)) && p.msg.Ask?
    ensures OneTicket(Step(c, Deliver(p)))
  {
    hide Step;
    AskStep(c, p);
    var c' := Step(c, Deliver(p));
    forall b, voter ensures Tickets(c', b, voter) <= 1 {
      assert Tickets(c, b, voter) <= 1;
    }
  }

  lemma AskActs(c: Cluster, p: Packet)
    requires Inv(c) && Enabled(c, Deliver(p)) && p.msg.Ask?
    ensures OneActs(c, Step(c, Deliver(p)), p.dst)
  {
    hide Step, Tickets, OneTicket, VotesKept, NetSound, WinnersSound, CandidatesSound;
    AskStep(c, p);
  }

  lemma AskVotes(c: Cluster, p: Packet)
    requires Inv(c) && Enabled(c, Deliver(p)) && p.msg.Ask?
    ensures var c' := Step(c, Deliver(p)); OneActs(c, c', p.dst) && VotesWell(c, c', p.dst)
  {
    hide Step, Tickets, OneTicket, BallotsSound, CandidatesSound, WinnersSound, OneActs;
    AskStep(c, p);
    AskActs(c, p);
    assert PacketSound(c, p);
  }

  lemma AskSends(c: Cluster, p: Packet)
    requires Inv(c) && Enabled(c, Deliver(p)) && p.msg.Ask?
    ensures var c' := Step(c, Deliver(p)); SendsWell(c, c')
  {
    hide Step, Tickets, OneTicket, BallotsSound, CandidatesSound, OneActs;
    AskStep(c, p);
    assert PacketSound(c, p);
  }

  lemma AskCounts(c: Cluster, p: Packet)
    requires Inv(c) && Enabled(c, Deliver(p)) && p.msg.Ask?
    ensures var c' := Step(c, Deliver(p)); OneActs(c, c', p.dst) && CountsWell(c, c', p.dst)
  {
    hide Step, Tickets, OneTicket, VotesKept, OneActs;
    AskStep(c, p);
    AskActs(c, p);
    assert PacketSound(c, p);
  }

  lemma AskKeeps(c: Cluster, p: Packet)
    requires Inv(c) && Enabled(c, Deliver(p)) && p.msg.Ask?
    ensures Inv(Step(c, Deliver(p)))
  {
    hide Inv, Step, OneTicket, OneActs, VotesWell, SendsWell, CountsWell;
    AskKeepsTickets(c, p);
    AskVotes(c, p);
    AskSends(c, p);
    AskCounts(c, p);
    TurnKeeps(c, Step(c, Deliver(p)), p.dst);
  }

  /** The new state after an answer, field by field. */
  lemma AnswerStep(c: Cluster, p: Packet)
    requires Enabled(c, Deliver(p)) && p.msg.Answer?
    ensures var c' := Step(c, Deliver(p));
            var s, resp, b := c.nodes[p.dst], p.msg.response, Ballot(c.nodes[p.dst].currentTerm, p.dst);
            var counted := s.role == Candidate && resp.term == s.currentTerm && resp.voteGranted;
            var wins := counted && s.voteCount + 1 >= Majority(|s.peers| + 1);
            && c'.nodes == c.nodes[p.dst := HandleVoteResponse(s, resp).state]
            && c'.net == c.net - multiset{p}
            && c'.history.votes == c.history.votes
            && c'.history.ballots == (if counted then c.history.ballots[b := Counted(c, b) + {resp.voterID}]
                                      else c.history.ballots)
            && c'.history.won == (if wins then c.history.won + {b} else c.history.won)
  {
  }

  lemma AnswerKeepsTickets(c: Cluster, p: Packet)
    requires Inv(c) && Enabled(c, Deliver(p)) && p.msg.Answer?
    ensures OneTicket(Step(c, Deliver(p)))
  {
    hide Step;
    AnswerStep(c, p);
    var c' := Step(c, Deliver(p));
    forall b, voter ensures Tickets(c', b, voter) <= 1 {
      assert Tickets(c, b, voter) <= 1;
    }
  }

  /** A granted answer that arrives in time is from a voter not counted before. */
  lemma AnswerIsNews(c: Cluster, p: Packet)
    requires Inv(c) && Enabled(c, Deliver(p)) && p.msg.Answer? && p.msg.response.voteGranted
    ensures p.msg.response.voterID !in Counted(c, Ballot(p.msg.response.term, p.dst))
  {
    assert Tickets(c, Ballot(p.msg.response.term, p.dst), p.msg.response.voterID) <= 1;
  }

  lemma AnswerActs(c: Cluster, p: Packet)
    requires Inv(c) && Enabled(c, Deliver(p)) && p.msg.Answer?
    ensures OneActs(c, Step(c, Deliver(p)), p.dst)
  {
    hide Step, Tickets, OneTicket, VotesKept, NetSound, WinnersSound, CandidatesSound;
    AnswerStep(c, p);
  }

  lemma AnswerVotes(c: Cluster, p: Packet)
    requires Inv(c) && Enabled(c, Deliver(p)) && p.msg.Answer?
    ensures var c' := Step(c, Deliver(p)); OneActs(c, c', p.dst) && VotesWell(c, c', p.dst)
  {
    hide Step, Tickets, OneTicket, BallotsSound, CandidatesSound, WinnersSound, OneActs;
    AnswerStep(c, p);
    AnswerActs(c, p);
    assert PacketSound(c, p);
  }

  lemma AnswerSends(c: Cluster, p: Packet)
    requires Inv(c) && Enabled(c, Deliver(p)) && p.msg.Answer?
    ensures var c' := Step(c, Deliver(p)); SendsWell(c, c')
  {
    hide Step, Tickets, OneTicket, BallotsSound, CandidatesSound, OneActs;
    AnswerStep(c, p);
    assert PacketSound(c, p);
  }

  lemma AnswerCounts(c: Cluster, p: Packet)
    requires Inv(c) && Enabled(c, Deliver(p)) && p.msg.Answer?
    ensures var c' := Step(c, Deliver(p)); OneActs(c, c', p.dst) && CountsWell(c, c', p.dst)
  {
    hide Step, Tickets, OneTicket, VotesKept, OneActs;
    AnswerStep(c, p);
    AnswerActs(c, p);
    assert PacketSound(c, p);
    if p.msg.response.voteGranted {
      AnswerIsNews(c, p);
    }
  }

  lemma AnswerKeeps(c: Cluster, p: Packet)
    requires Inv(c) && Enabled(c, Deliver(p)) && p.msg.Answer?
    ensures Inv(Step(c, Deliver(p)))
  {
    hide Inv, Step, OneTicket, OneActs, VotesWell, SendsWell, CountsWell;
    AnswerKeepsTickets(c, p);
    AnswerVotes(c, p);
    AnswerSends(c, p);
    AnswerCounts(c, p);
    TurnKeeps(c, Step(c, Deliver(p)), p.dst);
  }

  /** The new state after a heartbeat, field by field. */
  lemma BeatStep(c: Cluster, p: Packet)
    requires Enabled(c, Deliver(p)) && p.msg.Beat?
    ensures var c' := Step(c, Deliver(p));
            && c'.nodes == c.nodes[p.dst := HandleHeartbeat(c.nodes[p.dst], p.msg.beat).state]
            && c'.net == c.net - multiset{p}
            && c'.history.votes == c.history.votes
            && c'.history.ballots == c.history.ballots
            && c'.history.won == c.history.won
  {
  }

  lemma BeatKeepsTickets(c: Cluster, p: Packet)
    requires Inv(c) && Enabled(c, Deliver(p)) && p.msg.Beat?
    ensures OneTicket(Step(c, Deliver(p)))
  {
    hide Step;
    BeatStep(c, p);
    var c' := Step(c, Deliver(p));
    forall b, voter ensures Tickets(c', b, voter) <= 1 {
      assert Tickets(c, b, voter) <= 1;
    }
  }

  lemma BeatActs(c: Cluster, p: Packet)
    requires Inv(c) && Enabled(c, Deliver(p)) && p.msg.Beat?
    ensures OneActs(c, Step(c, Deliver(p)), p.dst)
  {
    hide Step, Tickets, OneTicket, VotesKept, NetSound, WinnersSound, CandidatesSound;
    BeatStep(c, p);
  }

  lemma BeatVotes(c: Cluster, p: Packet)
    requires Inv(c) && Enabled(c, Deliver(p)) && p.msg.Beat?
    ensures var c' := Step(c, Deliver(p)); OneActs(c, c', p.dst) && VotesWell(c, c', p.dst)
  {
    hide Step, Tickets, OneTicket, BallotsSound, CandidatesSound, WinnersSound, OneActs;
    BeatStep(c, p);
    BeatActs(c, p);
    assert PacketSound(c, p);
  }

  lemma BeatSends(c: Cluster, p: Packet)
    requires Inv(c) && Enabled(c, Deliver(p)) && p.msg.Beat?
    ensures var c' := Step(c, Deliver(p)); SendsWell(c, c')
  {
    hide Step, Tickets, OneTicket, BallotsSound, CandidatesSound, OneActs;
    BeatStep(c, p);
    assert PacketSound(c, p);
  }

  lemma BeatCounts(c: Cluster, p: Packet)
    requires Inv(c) && Enabled(c, Deliver(p)) && p.msg.Beat?
    ensures var c' := Step(c, Deliver(p)); OneActs(c, c', p.dst) && CountsWell(c, c', p.dst)
  {
    hide Step, Tickets, OneTicket, VotesKept, OneActs;
    BeatStep(c, p);
    BeatActs(c, p);
    assert PacketSound(c, p);
  }

  lemma BeatKeeps(c: Cluster, p: Packet)
    requires Inv(c) && Enabled(c, Deliver(p)) && p.msg.Beat?
    ensures Inv(Step(c, Deliver(p)))
  {
    hide Inv, Step, OneTicket, OneActs, VotesWell, SendsWell, CountsWell;
    BeatKeepsTickets(c, p);
    BeatVotes(c, p);
    BeatSends(c, p);
    BeatCounts(c, p);
    TurnKeeps(c, Step(c, Deliver(p)), p.dst);
  }

  lemma RestStep(c: Cluster, a: Action)
    requires Enabled(c, a) && (a.Lose? || a.Crash? || a.RunCall?)
    ensures var c' := Step(c, a);
            && c'.nodes == c.nodes && c'.net <= c.net
            && c'.history.(finished := {}) == c.history.(finished := {})
  {
  }

  lemma SameVotes(c: Cluster, c': Cluster)
    requires Inv(c) && c'.nodes == c.nodes && c'.history.(finished := {}) == c.history.(finished := {})
    ensures Shape(c') && VotesKept(c') && BallotsSound(c') && CandidatesSound(c') && WinnersSound(c')
  {
    hide OneTicket, NetSound;
  }

  lemma RestKeeps(c: Cluster, a: Action)
    requires Inv(c) && Enabled(c, a) && (a.Lose? || a.Crash? || a.RunCall?)
    ensures Inv(Step(c, a))
  {
    hide Step, VotesKept, BallotsSound, CandidatesSound, WinnersSound, Shape;
    RestStep(c, a);
    var c' := Step(c, a);
    SameVotes(c, c');
    forall b, voter ensures Tickets(c', b, voter) <= 1 {
      assert Tickets(c, b, voter) <= 1;
    }
    forall p | p in c'.net ensures PacketSound(c', p) {
      assert PacketSound(c, p);
    }
  }

  lemma StepKeeps(c: Cluster, a: Action)
    requires Inv(c) && Enabled(c, a)
    ensures Inv(Step(c, a))
  {
    hide Inv, Step;
    match a
    case Clock(i, timedOut) => ClockKeeps(c, i, timedOut);
    case Deliver(p) =>
      match p.msg {
        case Ask(_) => AskKeeps(c, p);
        case Answer(_) => AnswerKeeps(c, p);
        case Beat(_) => BeatKeeps(c, p);
      }
    case _ => RestKeeps(c, a);
  }

  lemma {:induction false} RunKeeps(c: Cluster, run: seq<Action>)
    requires Inv(c) && Possible(c, run)
    ensures Inv(Exec(c, run))
    decreases |run|
  {
    hide Inv, Step, Enabled;
    if run != [] {
      StepKeeps(c, run[0]);
      RunKeeps(Step(c, run[0]), run[1..]);
    }
  }

  // ---------- the theorems ----------

  /** Cluster e is where a run leads that starts with freshly built nodes. */
  ghost predicate Reached(c: Cluster, run: seq<Action>, e: Cluster) {
    Fresh(c) && Possible(c, run) && e == Exec(c, run)
  }

  lemma ReachedIsSound(c: Cluster, run: seq<Action>, e: Cluster)
    requires Reached(c, run, e)
    ensures Inv(e)
  {
    hide Inv;
    FreshIsSound(c);
    RunKeeps(c, run);
  }

  /** Two winners of one term would need two disjoint majorities. */
  lemma WinnerIsUnique(c: Cluster, a: Ballot, b: Ballot)
    requires Inv(c) && a in c.history.won && b in c.history.won && a.term == b.term
    ensures a == b
  {
    hide OneTicket, NetSound, Shape;
    var qa, qb := c.history.ballots[a], c.history.ballots[b];
    forall v | v in qa + qb ensures v in c.nodes.Keys {
      assert v in qa ==> Vote(a.term, v, a.candidate) in c.history.votes;
      assert v in qb ==> Vote(b.term, v, b.candidate) in c.history.votes;
    }
    assert qa <= qa + qb && qb <= qa + qb;
    var voter := QuorumsIntersect(c.nodes.Keys, qa, qb);
    assert Vote(a.term, voter, a.candidate) in c.history.votes && Vote(b.term, voter, b.candidate) in c.history.votes;
  }

  /** Election Safety: whatever the network loses, delays or reorders and whoever crashes, at most one
      node is ever declared leader in a term. */
  lemma ElectionSafety(c: Cluster, run: seq<Action>, e: Cluster, a: Ballot, b: Ballot)
    requires Reached(c, run, e)
    requires a in e.history.won && b in e.history.won && a.term == b.term
    ensures a.candidate == b.candidate
  {
    hide Inv, Reached;
    ReachedIsSound(c, run, e);
    WinnerIsUnique(e, a, b);
  }

  /** In particular no two nodes are in the leader role of the same term at once. */
  lemma OneLeaderAtATime(c: Cluster, run: seq<Action>, e: Cluster, i: nat, j: nat)
    requires Reached(c, run, e)
    requires i in e.nodes && j in e.nodes && e.nodes[i].role == Leader && e.nodes[j].role == Leader
    requires e.nodes[i].currentTerm == e.nodes[j].currentTerm
    ensures i == j
  {
    hide Reached;
    ReachedIsSound(c, run, e);
    assert WinnersSound(e);
    WinnerIsUnique(e, Ballot(e.nodes[i].currentTerm, i), Ballot(e.nodes[j].currentTerm, j));
  }
}
