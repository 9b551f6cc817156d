/** A success that nobody else can confirm: a leader counts an acknowledgement of its own earlier term. The
    run starts an epoch, and only the term of that one answer keeps it from being one. */
module StaleAnswer {
  import opened Types
  import opened Quorum
  import opened LogModel
  import opened LogFacts
  import opened Ensemble
  import opened Counterexamples
  import opened CommitRuns
  import opened EpochLog
  import opened Epoch
  import opened EpochStart
  import EM = ElectionModel
  import EC = ElectionCluster

  // ---------- an epoch of term 3 begins ----------

  /** Every request in flight is lost. */
  lemma {:induction false} LoseLetters(s0: System, s: System) returns (s': System)
    requires Reachable(true, s0, s)
    ensures Reachable(true, s0, s') && s' == s.(letters := multiset{})
    decreases |s.letters|
  {
    if s.letters == multiset{} {
      s' := s;
    } else {
      var l :| l in s.letters;
      var s1 := Step(s, LoseLetter(l));
      OneMore(true, s0, s, LoseLetter(l));
      s' := LoseLetters(s0, s1);
    }
  }

  /** Every proposal of a node times out. */
  lemma {:induction false} TimeOut(s0: System, s: System, i: nat) returns (s': System)
    requires Reachable(true, s0, s) && i in s.open
    ensures Reachable(true, s0, s') && s' == s.(open := s.open[i := {}])
    decreases |s.open[i]|
  {
    if s.open[i] == {} {
      s' := s;
      assert s.open[i := {}] == s.open;
    } else {
      var e :| e in s.open[i];
      var s1 := Step(s, GiveUp(i, e));
      OneMore(true, s0, s, GiveUp(i, e));
      s' := TimeOut(s0, s1, i);
      assert s1.open[i := {}] == s.open[i := {}];
    }
  }

  /** Everything a node has when its only entry is node 2's and nothing is committed. */
  ghost predicate Untouched(n: LogState, i: nat, peers: seq<nat>) {
    && n.id == i && n.peers == peers && Valid(n) && n.currentTerm <= 2 && n.log == [Usurper()]
    && n.commitIndex == -1 && n.lastApplied == -1 && n.table == EMPTY_TABLE
  }

  ghost const OLD := Ack(0, AppendResponse(1, true, 1, 2))

  lemma FirstWinner(n: LogState)
    requires NewLeader(n, 0, [1, 2], 1)
    ensures n.id == 0 && n.peers == [1, 2] && Valid(n) && n.log == [] && n.isLeader
    ensures n.commitIndex == -1 && n.lastApplied == -1 && n.table == EMPTY_TABLE && n.currentTerm == 1
  {
    BecomeLeaderKeepsValid(NewLog(0, [1, 2]), 1);
  }

  /** Node 0 leads term 1; its three entries reach node 1, whose acknowledgement is delayed. */
  lemma Delayed() returns (s: System)
    ensures Stage(Trio(), s, map[0 := 1], s.election) && s.election.nodes.Keys == {0, 1, 2} == s.election.alive
    ensures NewLeader(s.logs[0].(log := []), 0, [1, 2], 1) && s.logs[0].log == THREE
    ensures s.logs[1] == NewLog(1, [0, 2]).(currentTerm := 1, log := THREE) && s.logs[2] == NewLog(2, [0, 1])
    ensures s.acks == multiset{OLD} && s.finishing == {} && s.receipts == {} && s.open[2] == {}
    ensures forall j :: j == 0 || j == 1 ==>
              var n := s.election.nodes[j]; n.id == j && n.currentTerm == 1 && |n.peers| == 2
    ensures s.election.nodes[2] == EM.NewElection(2, [0, 1])
  {
    hide Reachable, EC.Step, Step, Fresh, BecomeLeader, NewLeader;
    var s0 := Trio();
    TrioIsFresh();
    assert s0.election.nodes.Keys == {0, 1, 2} && s0.logs.Keys == {0, 1, 2} && s0.open.Keys == {0, 1, 2};
    var s1 := WinElection(true, s0, s0, 0, 1, 1);
    assert NewLeader(s1.logs[0], 0, [1, 2], 1) by { WinnerIsNew(s1.logs[0]); }
    FirstWinner(s1.logs[0]);
    var s2 := BatchProposed(s0, s1);
    assert s2.logs[0].(log := []) == s1.logs[0];
    s := BatchSent(s0, s2);
  }

  lemma WinnerIsNew(n: LogState)
    requires n == BecomeLeader(NewLog(0, [1, 2]), 1)
    ensures NewLeader(n, 0, [1, 2], 1)
  {
  }

  lemma BothAreOlder(n: LogState, f: LogState)
    requires NewLeader(n.(log := []), 0, [1, 2], 1) && n.log == THREE
    requires f == NewLog(1, [0, 2]).(currentTerm := 1, log := THREE)
    ensures Older(n, 0, 2) && Older(f, 1, 2)
    ensures Untouched(n.(currentTerm := 2, log := [Usurper()]), 0, [1, 2])
    ensures Untouched(f.(currentTerm := 2, log := [Usurper()]), 1, [0, 2])
  {
    FirstWinner(n.(log := []));
  }

  lemma SecondIsUntouched(n: LogState)
    requires NewLeader(n, 2, [0, 1], 2)
    ensures Untouched(n.(log := [Usurper()]), 2, [0, 1])
  {
    BecomeLeaderKeepsValid(NewLog(2, [0, 1]), 2);
  }

  /** Node 2 wins term 2 and replaces the entries everywhere; then everything but answers is lost or gives up. */
  lemma Quieted() returns (s: System)
    ensures Stage(Trio(), s, map[0 := 1, 2 := 2], s.election) && s.election.nodes.Keys == {0, 1, 2} == s.election.alive
    ensures Untouched(s.logs[0], 0, [1, 2]) && Untouched(s.logs[1], 1, [0, 2]) && Untouched(s.logs[2], 2, [0, 1])
    ensures s.letters == multiset{} && s.open[0] == {} && s.finishing == {} && s.receipts == {}
    ensures OLD in s.acks && forall k :: k in s.acks && k.dst == 0 ==> k == OLD
    ensures var n := s.election.nodes[0];
            n.id == 0 && n.currentTerm == 2 && |n.peers| == 2 && n.role == EM.Follower
    ensures s.election.nodes[1].id == 1 && s.election.nodes[1].currentTerm == 1
  {
    hide Reachable, EC.Step, Step, Fresh, BecomeLeader, NewLeader, Older, Untouched, Trio;
    s := Delayed();
    BothAreOlder(s.logs[0], s.logs[1]);
    s := SecondLeader(true, Trio(), s, 0);
    assert NewLeader(s.logs[2], 2, [0, 1], 2) by { SecondIsNew(s.logs[2]); }
    SecondIsUntouched(s.logs[2]);
    s := Usurped(Trio(), s);
    s := LoseLetters(Trio(), s);
    s := TimeOut(Trio(), s, 0);
  }

  /** Node 0 comes back: an epoch begins. */
  lemma ThirdTerm() returns (s: System)
    ensures Reachable(true, Trio(), s) && Starts(s, 0, 3) && AtHelm(s, 0)
    ensures s.logs.Keys == {0, 1, 2} && OLD in s.acks && s.receipts == {}
    ensures forall j :: j == 0 || j == 1 || j == 2 ==> s.logs[j].log == [Usurper()] && s.logs[j].commitIndex == -1
    ensures s.logs[0].peers == [1, 2] && s.logs[0].lastApplied == -1 && Valid(s.logs[0]) && s.logs[0].currentTerm == 3
    ensures 0 in s.open && ReignOf(s, 0).leader == 0 && ReignOf(s, 0).term == 3
  {
    hide Reachable, EC.Step, Step, Fresh, BecomeLeader, Untouched, Trio;
    var before := Quieted();
    s := WinElection(true, Trio(), before, 0, 1, 3);
    BecomesReady(before, s);
    assert AtHelm(s, 0) by { NewAtHelm(s, before.logs[0]); }
  }

  lemma NewAtHelm(s: System, n: LogState)
    requires 0 in s.logs && 0 in s.led && s.led[0] == 3 && s.logs[0] == BecomeLeader(n, 3)
    ensures AtHelm(s, 0)
  {
  }

  lemma SecondIsNew(n: LogState)
    requires n == BecomeLeader(NewLog(2, [0, 1]), 2)
    ensures NewLeader(n, 2, [0, 1], 2)
  {
  }

  /** An untouched node meets all an epoch asks of it. */
  lemma UntouchedIsReady(n: LogState, i: nat, peers: seq<nat>)
    requires Untouched(n, i, peers)
    ensures n.id == i && n.peers == peers && Valid(n) && n.currentTerm <= 3 && n.log == [Usurper()]
    ensures n.commitIndex == -1 && TermsAscend(n.log) && n.log[0].term < 3 && Applied(n, [Usurper()])
  {
  }

  lemma BecomesReady(s: System, s': System)
    requires s.logs.Keys == {0, 1, 2} && s.open.Keys == {0, 1, 2}
    requires Untouched(s.logs[0], 0, [1, 2]) && Untouched(s.logs[1], 1, [0, 2]) && Untouched(s.logs[2], 2, [0, 1])
    requires s.letters == multiset{} && s.open[0] == {} && s.finishing == {}
    requires forall k :: k in s.acks && k.dst == 0 ==> k == OLD
    requires s'.logs == s.logs[0 := BecomeLeader(s.logs[0], 3)] && s'.open == s.open && s'.letters == s.letters
    requires s'.acks == s.acks && s'.finishing == s.finishing
    ensures Starts(s', 0, 3)
    ensures forall j :: j == 0 || j == 1 || j == 2 ==> s'.logs[j].log == [Usurper()] && s'.logs[j].commitIndex == -1
    ensures s'.logs[0].peers == [1, 2] && s'.logs[0].lastApplied == -1
  {
    UntouchedIsReady(s.logs[0], 0, [1, 2]);
    UntouchedIsReady(s.logs[1], 1, [0, 2]);
    UntouchedIsReady(s.logs[2], 2, [0, 1]);
    hide Untouched, Applied, TermsAscend, BecomeLeader, Valid, Match, Distinct, Starts;
    NewLeaderNode(s.logs[0], [Usurper()], 3);
    ReturnsUntouched(s.logs[0]);
    assert s'.logs.Keys == {0, 1, 2};
    AllReady(s');
  }

  lemma ReturnsUntouched(n: LogState)
    ensures BecomeLeader(n, 3).commitIndex == n.commitIndex && BecomeLeader(n, 3).lastApplied == n.lastApplied
  {
  }

  ghost predicate ReadyNode(n: LogState, i: nat) {
    && n.id == i && Valid(n) && n.currentTerm <= 3 && n.log == [Usurper()]
    && TermsAscend(n.log) && n.log[0].term < 3 && Applied(n, [Usurper()])
  }

  lemma AllReady(s: System)
    requires s.logs.Keys == {0, 1, 2} && s.open.Keys == {0, 1, 2}
    requires ReadyNode(s.logs[0], 0) && ReadyNode(s.logs[1], 1) && ReadyNode(s.logs[2], 2)
    requires s.letters == multiset{} && s.open[0] == {} && s.finishing == {}
    requires forall k :: k in s.acks && k.dst == 0 ==> k == OLD
    requires var n := s.logs[0];
             && n.isLeader && n.currentTerm == 3 && n.peers == [1, 2]
             && forall p :: p in n.peers ==>
                  p in n.nextIndex && n.nextIndex[p] == 1 && p in n.matchIndex && n.matchIndex[p] == -1
    ensures Starts(s, 0, 3)
  {
    hide Valid, TermsAscend, Applied;
    assert Match([Usurper()], [Usurper()]);
    assert Distinct([1, 2]) && Members([1, 2]) == {1, 2} == {0, 1, 2} - {0};
    forall i | i in s.logs ensures ReadyNode(s.logs[i], i) {
      assert i == 0 || i == 1 || i == 2;
    }
  }

  // ---------- the answer of term 1 is counted in term 3 ----------

  const PROPOSE := ProposeAt(0, AddRoom, "lobby", "gamma:9003")

  ghost predicate Makes(s: System, a: Action, s': System) {
    Enabled(s, a) && Safe(s, a) && Guarded(s, a) && s' == Step(s, a)
  }

  lemma ProposesTwice(s: System) returns (s1: System, s2: System)
    requires 0 in s.open && AtHelm(s, 0) && Valid(s.logs[0])
    requires s.logs[0].currentTerm == 3 && s.logs[0].log == [Usurper()]
    ensures Makes(s, PROPOSE, s1) && Makes(s1, PROPOSE, s2)
    ensures s2 == s.(logs := s.logs[0 := s.logs[0].(log := [Usurper(), Third(1), Third(2)])],
                     open := s.open[0 := s.open[0] + {Third(1), Third(2)}], canon := s2.canon)
    ensures AtHelm(s2, 0) && Valid(s2.logs[0])
  {
    hide Step;
    s1 := Step(s, PROPOSE);
    ProposeStep(s, PROPOSE);
    s2 := Step(s1, PROPOSE);
    ProposeStep(s1, PROPOSE);
    assert s.open[0] + {Third(1)} + {Third(2)} == s.open[0] + {Third(1), Third(2)};
    assert s1.logs[0].log == [Usurper(), Third(1)] && s2.logs[0].log == [Usurper(), Third(1), Third(2)];
    assert s2.logs[0] == s.logs[0].(log := [Usurper(), Third(1), Third(2)]);
  }

  lemma AnswerCounts(s: System) returns (s': System)
    requires OLD in s.acks && AtHelm(s, 0) && 0 in s.open && s.open[0] != {}
    requires var n := s.logs[0];
             && Valid(n) && n.peers == [1, 2] && n.currentTerm == 3
             && n.log == [Usurper(), Third(1), Third(2)] && n.commitIndex == -1 && n.lastApplied == -1
    ensures Makes(s, Acknowledge(OLD), s')
    ensures s' == s.(logs := s'.logs, acks := s'.acks) && s'.logs == s.logs[0 := s'.logs[0]]
    ensures var n := s'.logs[0];
            && n.log == s.logs[0].log && n.commitIndex == 2 && n.lastApplied == -1 && Valid(n) && AtHelm(s', 0)
  {
    hide Step, HandleResponse;
    s' := Step(s, Acknowledge(OLD));
    AnswerCommitsAll(s.logs[0], OLD.resp.term, 2);
    HandleResponseKeeps(s.logs[0], OLD.resp);
    AcknowledgeStep(s, OLD);
  }

  lemma Returns(s: System) returns (s1: System, s2: System)
    requires AtHelm(s, 0) && 0 in s.open && Third(2) in s.open[0] && Valid(s.logs[0])
    requires |s.logs[0].log| == 3 && s.logs[0].commitIndex == 2
    ensures Makes(s, Confirm(0, Third(2)), s1) && Makes(s1, Finish(Receipt(0, Third(2))), s2)
    ensures Receipt(0, Third(2)) in s2.receipts && s2.logs == s.logs[0 := s2.logs[0]]
    ensures s2.logs[0].log == s.logs[0].log && s2.logs[0].commitIndex == 2
  {
    hide Step, ApplyCommitted;
    var e := Third(2);
    ApplyCommittedFolds(s.logs[0]);
    assert Valid(ApplyCommitted(s.logs[0])) by { AppliedValid(s.logs[0]); }
    s1 := Step(s, Confirm(0, e));
    ConfirmStep(s, 0, e);
    s2 := Step(s1, Finish(Receipt(0, e)));
    SendStep(s1, Finish(Receipt(0, e)), 0);
    assert Receipt(0, e) in s2.receipts by { ReturnsTrue(s1, Receipt(0, e)); }
  }

  lemma ReturnsTrue(s: System, r: Receipt)
    requires Enabled(s, Finish(r)) && Valid(s.logs[r.node])
    ensures Safe(s, Finish(r)) && r in Step(s, Finish(r)).receipts
  {
  }

  lemma AppliedValid(n: LogState)
    requires Valid(n) && CanApply(n)
    ensures Valid(ApplyCommitted(n))
  {
    ApplyCommittedFolds(n);
  }

  /** One after the other, these steps make a guarded run. */
  lemma {:induction false} StepsFrom(a: seq<Action>, s: seq<System>, k: nat)
    requires |s| == |a| + 1 && k <= |a|
    requires forall j :: 0 <= j < |a| ==> Makes(s[j], a[j], s[j + 1])
    ensures Possible(s[k], a[k..]) && GuardedRun(s[k], a[k..]) && Exec(s[k], a[k..]) == s[|a|]
    decreases |a| - k
  {
    hide Enabled, Safe, Guarded, Step;
    if k < |a| {
      StepsFrom(a, s, k + 1);
      assert a[k..][0] == a[k] && a[k..][1..] == a[k + 1..];
    }
  }

  /** A guarded run leads from one system to the other. */
  ghost predicate RunsTo(s: System, run: seq<Action>, s': System) {
    Possible(s, run) && GuardedRun(s, run) && s' == Exec(s, run)
  }

  /** A proposal of node 0 has returned true and its entry is at its index; every commit index lies inside its
      log, and no other node holds the entry. */
  ghost predicate ReturnedAlone(s: System, e: LogEntry) {
    && s.logs.Keys == {0, 1, 2} && Receipt(0, e) in s.receipts
    && (forall j :: j in s.logs ==> s.logs[j].commitIndex < |s.logs[j].log|)
    && 0 <= e.index <= s.logs[0].commitIndex && s.logs[0].log[e.index] == e
    && e !in s.logs[1].log && e !in s.logs[2].log
  }

  /** Of a run of the reign, only the answers that report success and are of another term are not allowed. */
  ghost predicate AllowedButForTerm(run: seq<Action>, c: Reign) {
    forall k :: 0 <= k < |run| ==>
      || Allowed(run[k], c)
      || (run[k].Acknowledge? && run[k].ack.dst == c.leader && !CurrentAnswer(run[k].ack.resp, c.term))
  }

  /** ProposeEntry returns true, within the guard, for an entry that only its own node holds. The run is one of
      an epoch but for answers that report success and are of another term; the program does not check that.
      The node handles no request meanwhile. */
  lemma StaleAnswerCommits() returns (start: System, run: seq<Action>, end: System)
    ensures Fresh(Trio()) && Reachable(true, Trio(), start)
    ensures Starts(start, 0, 3) && AllowedButForTerm(run, ReignOf(start, 0)) && RunsTo(start, run, end)
    ensures ReturnedAlone(end, Third(2)) && Receipt(0, Third(2)) !in start.receipts
    ensures forall k :: 0 <= k < |run| ==> !run[k].Append? && !run[k].Notify?
  {
    hide Reachable, Fresh, Possible, GuardedRun, Exec, Makes, AtHelm, Starts, Step, Enabled, Safe, Trio, Valid, ReignOf;
    TrioIsFresh();
    start := ThirdTerm();
    var s1, s2 := ProposesTwice(start);
    var s3 := AnswerCounts(s2);
    var s4, s5 := Returns(s3);
    end := s5;
    run := [PROPOSE, PROPOSE, Acknowledge(OLD), Confirm(0, Third(2)), Finish(Receipt(0, Third(2)))];
    StepsFrom(run, [start, s1, s2, s3, s4, s5], 0);
    assert run[0..] == run;
  }
}
