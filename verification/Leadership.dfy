/** What the rest of the system learns from elections: who the leader of a term is, and which terms
    exist at all. */
module Leadership {
  import opened Types
  import opened ElectionModel
  import opened ElectionCluster
  import opened ElectionSafety

  // ---------- leader agreement ----------

  ghost predicate CallSound(c: Cluster, call: Call) {
    match call
    case LeaderCall(i, term) => i in c.nodes && Ballot(term, i) in c.history.won
    case FollowerCall(i, leader, term) => i in c.nodes && i != leader && Ballot(term, leader) in c.history.won
  }

  ghost predicate CallsSound(c: Cluster) {
    && (forall call :: call in c.history.started ==> CallSound(c, call))
    && (forall call :: call in c.calls ==> call in c.history.started)
    && c.history.finished <= c.history.started
  }

  /** Is this callback waiting to run, or has it run? */
  function Runs(c: Cluster, call: Call): nat {
    c.calls[call] + if call in c.history.finished then 1 else 0
  }

  ghost predicate LeadersCalledOnce(c: Cluster) {
    forall i, term :: Runs(c, LeaderCall(i, term)) <= 1
  }

  ghost predicate WonBy(c: Cluster, leader: nat, term: int) {
    exists k :: k <= term && Ballot(k, leader) in c.history.won
  }

  ghost predicate KnownLeadersWon(c: Cluster) {
    forall i :: i in c.nodes ==>
      && c.nodes[i].leaderID >= -1
      && (c.nodes[i].leaderID >= 0 ==> WonBy(c, c.nodes[i].leaderID, c.nodes[i].currentTerm))
  }

  // ---------- terms ----------

  ghost predicate Opened(c: Cluster, term: int) {
    exists i :: Ballot(term, i) in c.history.ballots
  }

  ghost predicate Grounded(c: Cluster, term: int) {
    forall k :: 1 <= k <= term ==> Opened(c, k)
  }

  function TermOf(msg: Message): int {
    match msg
    case Ask(req) => req.term
    case Answer(resp) => resp.term
    case Beat(hb) => hb.term
  }

  ghost predicate TermsGrounded(c: Cluster) {
    && (forall i :: i in c.nodes ==> Grounded(c, c.nodes[i].currentTerm))
    && (forall p :: p in c.net ==> Grounded(c, TermOf(p.msg)))
  }

  // ---------- preservation ----------

  lemma GroundedGrows(c: Cluster, c': Cluster, term: int)
    requires Grounded(c, term) && c.history.ballots.Keys <= c'.history.ballots.Keys
    ensures Grounded(c', term)
  {
    forall k | 1 <= k <= term ensures Opened(c', k) {
      assert Opened(c, k);
    }
  }

  /** The calls a turn starts. */
  function NewCalls(c: Cluster, a: Action): set<Call>
    requires Enabled(c, a)
  {
    match a
    case Deliver(p) => Called(p.dst, Receive(c.nodes[p.dst], p.msg).effect)
    case _ => {}
  }

  lemma StepCalls(c: Cluster, a: Action)
    requires Enabled(c, a) && !a.RunCall?
    ensures var c' := Step(c, a);
            && c'.calls == c.calls + multiset(NewCalls(c, a))
            && c'.history.started == c.history.started + NewCalls(c, a)
            && c'.history.finished == c.history.finished
  {
    hide Remember, Receive, Sent;
    match a
    case Clock(i, timedOut) =>
      RememberCalls(c.history, i, c.nodes[i], None, Tick(c.nodes[i], timedOut));
    case Deliver(p) =>
      RememberCalls(c.history, p.dst, c.nodes[p.dst], Some(p.msg), Receive(c.nodes[p.dst], p.msg));
    case _ =>
  }

  lemma RememberCalls(h: History, i: nat, before: ElectionState, msg: Option<Message>, t: Turn)
    ensures Remember(h, i, before, msg, t).started == h.started && Remember(h, i, before, msg, t).finished == h.finished
  {
  }

  /** Nodes stay, winners stay winners, ballots stay open, and terms never go back. */
  ghost predicate Grows(c: Cluster, c': Cluster) {
    && c'.nodes.Keys == c.nodes.Keys
    && c.history.won <= c'.history.won
    && c.history.ballots.Keys <= c'.history.ballots.Keys
    && forall i :: i in c.nodes ==> c.nodes[i].currentTerm <= c'.nodes[i].currentTerm
  }

  lemma StepGrows(c: Cluster, a: Action)
    requires Enabled(c, a)
    ensures Grows(c, Step(c, a))
  {
    hide Step;
    match a
    case Clock(i, timedOut) => ClockStep(c, i, timedOut);
    case Deliver(p) =>
      match p.msg {
        case Ask(_) => AskStep(c, p);
        case Answer(_) => AnswerStep(c, p);
        case Beat(_) => BeatStep(c, p);
      }
    case _ => RestStep(c, a);
  }

  lemma CallsStaySound(c: Cluster, c': Cluster, started: set<Call>)
    requires CallsSound(c) && LeadersCalledOnce(c) && Grows(c, c')
    requires c'.calls == c.calls + multiset(started) && c'.history.started == c.history.started + started
    requires c'.history.finished == c.history.finished
    requires forall call :: call in started ==> CallSound(c', call) && (call.LeaderCall? ==> call !in c.history.started)
    ensures CallsSound(c') && LeadersCalledOnce(c')
  {
    forall i, term ensures Runs(c', LeaderCall(i, term)) <= 1 {
      assert Runs(c, LeaderCall(i, term)) <= 1;
    }
    forall call | call in c'.history.started ensures CallSound(c', call) {
      assert call in c.history.started ==> CallSound(c, call);
    }
  }

  lemma RunCallKeepsCalls(c: Cluster, call: Call)
    requires CallsSound(c) && LeadersCalledOnce(c) && Enabled(c, RunCall(call))
    ensures var c' := Step(c, RunCall(call)); CallsSound(c') && LeadersCalledOnce(c')
  {
    var c' := Step(c, RunCall(call));
    forall i, term ensures Runs(c', LeaderCall(i, term)) <= 1 {
      assert Runs(c, LeaderCall(i, term)) <= 1;
    }
    forall x | x in c'.history.started ensures CallSound(c', x) {
      assert CallSound(c, x);
    }
  }

  /** Whatever a turn calls back is true: a new leader has just won, a new follower heard from a winner. */
  lemma NewCallsSound(c: Cluster, a: Action)
    requires Inv(c) && CallsSound(c) && Enabled(c, a)
    ensures forall call :: call in NewCalls(c, a) ==>
              CallSound(Step(c, a), call) && (call.LeaderCall? ==> call !in c.history.started)
  {
    hide OneTicket, Step, VotesKept, BallotsSound, WinnersSound;
    if a.Deliver? {
      var p := a.packet;
      assert PacketSound(c, p);
      match p.msg {
        case Ask(_) =>
        case Answer(resp) =>
          AnswerStep(c, p);
          assert CandidatesSound(c);
          var call := LeaderCall(p.dst, c.nodes[p.dst].currentTerm);
          assert call in c.history.started ==> CallSound(c, call);
        case Beat(_) => BeatStep(c, p);
      }
    }
  }

  lemma StepKeepsCalls(c: Cluster, a: Action)
    requires Inv(c) && CallsSound(c) && LeadersCalledOnce(c) && Enabled(c, a)
    ensures var c' := Step(c, a); CallsSound(c') && LeadersCalledOnce(c')
  {
    hide Inv, Step, CallsSound, LeadersCalledOnce, Grows, NewCalls, CallSound;
    if a.RunCall? {
      RunCallKeepsCalls(c, a.call);
    } else {
      StepGrows(c, a);
      StepCalls(c, a);
      NewCallsSound(c, a);
      CallsStaySound(c, Step(c, a), NewCalls(c, a));
    }
  }

  lemma KnownLeadersStay(c: Cluster, c': Cluster, i: nat)
    requires KnownLeadersWon(c) && Grows(c, c') && i in c.nodes && c'.nodes == c.nodes[i := c'.nodes[i]]
    requires var s, s' := c.nodes[i], c'.nodes[i];
             s'.leaderID == s.leaderID || s'.leaderID == -1
             || (s'.leaderID >= 0 && Ballot(s'.currentTerm, s'.leaderID) in c'.history.won)
    ensures KnownLeadersWon(c')
  {
    forall j | j in c'.nodes && c'.nodes[j].leaderID >= 0
      ensures WonBy(c', c'.nodes[j].leaderID, c'.nodes[j].currentTerm)
    {
      if c'.nodes[j].leaderID == c.nodes[j].leaderID {
        var k :| k <= c.nodes[j].currentTerm && Ballot(k, c.nodes[j].leaderID) in c.history.won;
        assert Ballot(k, c'.nodes[j].leaderID) in c'.history.won;
      }
    }
  }

  lemma StepKeepsLeaders(c: Cluster, a: Action)
    requires Inv(c) && KnownLeadersWon(c) && Enabled(c, a)
    ensures KnownLeadersWon(Step(c, a))
  {
    hide Step, KnownLeadersWon, OneTicket, VotesKept, BallotsSound, CandidatesSound, WinnersSound;
    StepGrows(c, a);
    match a
    case Clock(i, timedOut) =>
      ClockStep(c, i, timedOut);
      KnownLeadersStay(c, Step(c, a), i);
    case Deliver(p) =>
      assert PacketSound(c, p);
      match p.msg {
        case Ask(_) => AskStep(c, p);
        case Answer(_) => AnswerStep(c, p);
        case Beat(_) => BeatStep(c, p);
      }
      KnownLeadersStay(c, Step(c, a), p.dst);
    case _ =>
      RestStep(c, a);
      SameLeaders(c, Step(c, a));
  }

  lemma SameLeaders(c: Cluster, c': Cluster)
    requires KnownLeadersWon(c) && c'.nodes == c.nodes && c.history.won <= c'.history.won
    ensures KnownLeadersWon(c')
  {
    forall j | j in c'.nodes && c'.nodes[j].leaderID >= 0
      ensures WonBy(c', c'.nodes[j].leaderID, c'.nodes[j].currentTerm)
    {
      assert WonBy(c, c.nodes[j].leaderID, c.nodes[j].currentTerm);
    }
  }

  /** Terms stay grounded as long as every term that is new somewhere was opened or already around. */
  lemma TermsStayGrounded(c: Cluster, c': Cluster, i: nat)
    requires TermsGrounded(c) && Grows(c, c') && i in c.nodes && c'.nodes == c.nodes[i := c'.nodes[i]]
    requires Grounded(c', c'.nodes[i].currentTerm)
    requires forall p :: p in c'.net && p !in c.net ==> Grounded(c', TermOf(p.msg))
    ensures TermsGrounded(c')
  {
    hide Grounded;
    forall j | j in c'.nodes ensures Grounded(c', c'.nodes[j].currentTerm) {
      if j != i { GroundedGrows(c, c', c.nodes[j].currentTerm); }
    }
    forall p | p in c'.net ensures Grounded(c', TermOf(p.msg)) {
      if p in c.net { GroundedGrows(c, c', TermOf(p.msg)); }
    }
  }

  lemma OpenNext(c: Cluster, c': Cluster, i: nat, term: int)
    requires Grounded(c, term) && c.history.ballots.Keys <= c'.history.ballots.Keys
    requires Ballot(term + 1, i) in c'.history.ballots
    ensures Grounded(c', term + 1)
  {
    GroundedGrows(c, c', term);
    assert Opened(c', term + 1);
  }

  lemma ClockKeepsTerms(c: Cluster, i: nat, timedOut: bool)
    requires TermsGrounded(c) && Enabled(c, Clock(i, timedOut))
    ensures TermsGrounded(Step(c, Clock(i, timedOut)))
  {
    hide Step, Grounded;
    var c' := Step(c, Clock(i, timedOut));
    StepGrows(c, Clock(i, timedOut));
    ClockStep(c, i, timedOut);
    var s := c.nodes[i];
    GroundedGrows(c, c', s.currentTerm);
    if s.role != Leader && timedOut {
      OpenNext(c, c', i, s.currentTerm);
    }
    forall p | p in c'.net && p !in c.net ensures Grounded(c', TermOf(p.msg)) {
    }
    TermsStayGrounded(c, c', i);
  }

  lemma DeliverKeepsTerms(c: Cluster, p: Packet)
    requires TermsGrounded(c) && Enabled(c, Deliver(p))
    ensures TermsGrounded(Step(c, Deliver(p)))
  {
    hide Step, Grounded;
    var c' := Step(c, Deliver(p));
    StepGrows(c, Deliver(p));
    GroundedGrows(c, c', c.nodes[p.dst].currentTerm);
    GroundedGrows(c, c', TermOf(p.msg));
    match p.msg {
      case Ask(_) => AskStep(c, p);
      case Answer(_) => AnswerStep(c, p);
      case Beat(_) => BeatStep(c, p);
    }
    TermsStayGrounded(c, c', p.dst);
  }

  lemma StepKeepsTerms(c: Cluster, a: Action)
    requires TermsGrounded(c) && Enabled(c, a)
    ensures TermsGrounded(Step(c, a))
  {
    hide Step, Grounded;
    match a
    case Clock(i, timedOut) => ClockKeepsTerms(c, i, timedOut);
    case Deliver(p) => DeliverKeepsTerms(c, p);
    case _ =>
      RestStep(c, a);
      var c' := Step(c, a);
      forall term | Grounded(c, term) ensures Grounded(c', term) { GroundedGrows(c, c', term); }
  }

  // ---------- over whole runs ----------

  ghost predicate Known(c: Cluster) {
    Inv(c) && CallsSound(c) && LeadersCalledOnce(c) && KnownLeadersWon(c) && TermsGrounded(c)
  }

  lemma FreshIsKnown(c: Cluster)
    requires Fresh(c)
    ensures Known(c)
  {
    FreshIsSound(c);
  }

  lemma StepKeepsKnown(c: Cluster, a: Action)
    requires Known(c) && Enabled(c, a)
    ensures Known(Step(c, a))
  {
    hide Step, Enabled, Inv, CallsSound, LeadersCalledOnce, KnownLeadersWon, TermsGrounded;
    StepKeeps(c, a);
    StepKeepsCalls(c, a);
    StepKeepsLeaders(c, a);
    StepKeepsTerms(c, a);
  }

  lemma {:induction false} RunKeepsKnown(c: Cluster, run: seq<Action>)
    requires Known(c) && Possible(c, run)
    ensures Known(Exec(c, run))
    decreases |run|
  {
    hide Known, Step, Enabled;
    if run != [] {
      StepKeepsKnown(c, run[0]);
      RunKeepsKnown(Step(c, run[0]), run[1..]);
    }
  }

  lemma ReachedIsKnown(c: Cluster, run: seq<Action>, e: Cluster)
    requires Reached(c, run, e)
    ensures Known(e)
  {
    hide Known;
    FreshIsKnown(c);
    RunKeepsKnown(c, run);
  }

  /** All log modules that are ever told to follow a leader in a term are told the same one: the only
      node that can ever win that term. */
  lemma LeaderAgreement(c: Cluster, run: seq<Action>, e: Cluster, i: nat, j: nat, leaderI: nat, leaderJ: nat, term: int)
    requires Reached(c, run, e)
    requires FollowerCall(i, leaderI, term) in e.history.started
    requires FollowerCall(j, leaderJ, term) in e.history.started
    ensures leaderI == leaderJ && forall b :: b in e.history.won && b.term == term ==> b.candidate == leaderI
    ensures Ballot(term, leaderI) in e.history.won
  {
    hide Inv, Reached, LeadersCalledOnce, KnownLeadersWon, TermsGrounded;
    ReachedIsKnown(c, run, e);
    assert CallSound(e, FollowerCall(i, leaderI, term)) && CallSound(e, FollowerCall(j, leaderJ, term));
    WinnerIsUnique(e, Ballot(term, leaderI), Ballot(term, leaderJ));
    forall b | b in e.history.won && b.term == term ensures b.candidate == leaderI {
      WinnerIsUnique(e, b, Ballot(term, leaderI));
    }
  }

  /** A node that names a leader names one that has won a term, and not a later one than its own. */
  lemma NamedLeaderWon(c: Cluster, run: seq<Action>, e: Cluster, i: nat)
    requires Reached(c, run, e)
    requires i in e.nodes && e.nodes[i].leaderID >= 0
    ensures exists k, l :: k <= e.nodes[i].currentTerm && l == e.nodes[i].leaderID && Ballot(k, l) in e.history.won
  {
    hide Inv, Reached, CallsSound, LeadersCalledOnce, TermsGrounded;
    ReachedIsKnown(c, run, e);
    assert WonBy(e, e.nodes[i].leaderID, e.nodes[i].currentTerm);
  }

  /** Terms have no gaps: every term from 1 up to any term seen on a node or in a packet was opened
      by some candidate. */
  lemma TermsHaveNoGaps(c: Cluster, run: seq<Action>, e: Cluster, k: int)
    requires Reached(c, run, e) && k >= 1
    requires (exists i :: i in e.nodes && k <= e.nodes[i].currentTerm) || (exists p :: p in e.net && k <= TermOf(p.msg))
    ensures exists candidate :: Ballot(k, candidate) in e.history.ballots
  {
    hide Inv, Reached, CallsSound, LeadersCalledOnce, KnownLeadersWon;
    ReachedIsKnown(c, run, e);
    assert Opened(e, k);
  }

  /** No node opens the same term twice, and no node's term ever goes back. */
  lemma TermOpenedOnce(c: Cluster, run: seq<Action>, e: Cluster, a: Action)
    requires Reached(c, run, e) && Enabled(e, a)
    ensures var e' := Step(e, a);
            && (forall i :: i in e.nodes ==> i in e'.nodes && e.nodes[i].currentTerm <= e'.nodes[i].currentTerm)
            && (forall b :: b in e'.history.ballots && b !in e.history.ballots ==>
                  && a.Clock? && a.node == b.candidate
                  && e.nodes[a.node].currentTerm < b.term == e'.nodes[a.node].currentTerm)
            && (forall i, timedOut :: a == Clock(i, timedOut) && e'.nodes[i].currentTerm > e.nodes[i].currentTerm ==>
                  Ballot(e'.nodes[i].currentTerm, i) !in e.history.ballots)
  {
    hide Reached, Step;
    ReachedIsSound(c, run, e);
    StepGrows(e, a);
    match a
    case Clock(i, timedOut) => ClockStep(e, i, timedOut);
    case Deliver(p) =>
      match p.msg {
        case Ask(_) => AskStep(e, p);
        case Answer(_) => AnswerStep(e, p); assert BallotsSound(e) && CandidatesSound(e);
        case Beat(_) => BeatStep(e, p);
      }
    case _ => RestStep(e, a);
  }
}
