/** Two runs of a three-node ensemble, starting from scratch, that show which of the documented safety
    properties the program does not keep by itself. */
module Counterexamples {
  import opened Types
  import opened Quorum
  import opened Ordering
  import opened LogModel
  import opened LogFacts
  import opened Proposal
  import opened Ensemble
  import EM = ElectionModel
  import EC = ElectionCluster

  /** Some run leads from s0 to s; with `g`, one that respects the stale-leader guard throughout. */
  ghost predicate Reachable(g: bool, s0: System, s: System) {
    exists run :: Possible(s0, run) && (g ==> GuardedRun(s0, run)) && s == Exec(s0, run)
  }

  lemma {:induction false} RunExtends(s0: System, run: seq<Action>, a: Action)
    requires Possible(s0, run) && Enabled(Exec(s0, run), a) && Safe(Exec(s0, run), a)
    ensures Possible(s0, run + [a]) && Exec(s0, run + [a]) == Step(Exec(s0, run), a)
    ensures GuardedRun(s0, run) && Guarded(Exec(s0, run), a) ==> GuardedRun(s0, run + [a])
    decreases |run|
  {
    hide Enabled, Safe, Step, Guarded;
    var longer := run + [a];
    if run == [] {
      assert longer[1..] == [];
    } else {
      assert longer[0] == run[0] && longer[1..] == run[1..] + [a];
      RunExtends(Step(s0, run[0]), run[1..], a);
    }
  }

  lemma OneMore(g: bool, s0: System, s: System, a: Action)
    requires Reachable(g, s0, s) && Enabled(s, a) && Safe(s, a) && (g ==> Guarded(s, a))
    ensures Reachable(g, s0, Step(s, a))
  {
    hide Enabled, Safe, Step, Possible, Exec, Guarded, GuardedRun;
    var run :| Possible(s0, run) && (g ==> GuardedRun(s0, run)) && s == Exec(s0, run);
    RunExtends(s0, run, a);
  }

  function Trio(): System {
    var election := EC.Cluster(
      map[0 := EM.NewElection(0, [1, 2]), 1 := EM.NewElection(1, [0, 2]), 2 := EM.NewElection(2, [0, 1])],
      {0, 1, 2}, multiset{}, multiset{}, EC.History({}, map[], {}, {}, {}));
    System(election,
           map[0 := NewLog(0, [1, 2]), 1 := NewLog(1, [0, 2]), 2 := NewLog(2, [0, 1])],
           multiset{}, multiset{}, map[0 := {}, 1 := {}, 2 := {}], {}, {}, map[], map[])
  }

  lemma TrioElectionIsFresh()
    ensures EC.Fresh(Trio().election)
  {
    assert Members([1, 2]) == {1, 2} && Members([0, 2]) == {0, 2} && Members([0, 1]) == {0, 1};
    var c := Trio().election;
    assert c.nodes.Keys == {0, 1, 2};
    assert c.nodes.Keys - {0} == {1, 2} && c.nodes.Keys - {1} == {0, 2} && c.nodes.Keys - {2} == {0, 1};
  }

  lemma TrioIsFresh()
    ensures Fresh(Trio()) && forall g :: Reachable(g, Trio(), Trio())
  {
    hide EC.Fresh;
    TrioElectionIsFresh();
    assert Trio().logs.Keys == {0, 1, 2} && Trio().open.Keys == {0, 1, 2} && Trio().election.nodes.Keys == {0, 1, 2};
    NoSteps();
  }

  lemma NoSteps()
    ensures forall g :: Reachable(g, Trio(), Trio())
  {
    hide Trio;
    assert Possible(Trio(), []) && Exec(Trio(), []) == Trio();
  }

  /** Everything but the election and two nodes' logs. */
  ghost predicate OnlyElection(s: System, s': System) {
    s' == s.(election := s'.election) && s'.election.alive == s.election.alive
    && forall call :: call in s.election.calls ==> call in s'.election.calls
  }

  lemma OpenElection(g: bool, s0: System, s: System, i: nat) returns (s': System)
    requires Reachable(g, s0, s) && i in s.election.nodes && i in s.election.alive
    requires s.election.nodes[i].role != EM.Leader
    ensures Reachable(g, s0, s') && OnlyElection(s, s')
    ensures var n := s.election.nodes[i];
            && s'.election.nodes == s.election.nodes[i := EM.StartElection(n).state]
            && forall j :: j in s.election.nodes && j != i ==>
                 EC.Packet(j, EC.Ask(VoteRequest(n.currentTerm + 1, n.id))) in s'.election.net
  {
    var a := Elect(EC.Clock(i, true));
    s' := Step(s, a);
    OneMore(g, s0, s, a);
  }

  lemma GetVote(g: bool, s0: System, s: System, i: nat, j: nat, term: int) returns (s': System)
    requires Reachable(g, s0, s) && j in s.election.nodes && j in s.election.alive
    requires EC.Packet(j, EC.Ask(VoteRequest(term, i))) in s.election.net
    requires s.election.nodes[j].currentTerm < term && s.election.nodes[j].id == j
    ensures Reachable(g, s0, s') && OnlyElection(s, s')
    ensures s'.election.nodes ==
            s.election.nodes[j := EM.HandleVoteRequest(s.election.nodes[j], VoteRequest(term, i)).state]
    ensures EC.Packet(i, EC.Answer(VoteResponse(term, true, j))) in s'.election.net
  {
    var a := Elect(EC.Deliver(EC.Packet(j, EC.Ask(VoteRequest(term, i)))));
    s' := Step(s, a);
    OneMore(g, s0, s, a);
  }

  lemma CountVote(g: bool, s0: System, s: System, i: nat, j: nat, term: int) returns (s': System)
    requires Reachable(g, s0, s) && i in s.election.nodes && i in s.election.alive
    requires EC.Packet(i, EC.Answer(VoteResponse(term, true, j))) in s.election.net
    requires var n := s.election.nodes[i];
             n.role == EM.Candidate && n.currentTerm == term && n.voteCount == 1 && |n.peers| == 2 && n.id == i
    ensures Reachable(g, s0, s') && OnlyElection(s, s')
    ensures s'.election.nodes ==
            s.election.nodes[i := s.election.nodes[i].(voteCount := 2, role := EM.Leader, leaderID := i)]
    ensures EC.LeaderCall(i, term) in s'.election.calls
  {
    var a := Elect(EC.Deliver(EC.Packet(i, EC.Answer(VoteResponse(term, true, j)))));
    s' := Step(s, a);
    OneMore(g, s0, s, a);
  }

  /** Node i stands, node j votes for it, and node i's log module is told. */
  lemma WinElection(g: bool, s0: System, s: System, i: nat, j: nat, term: int) returns (s': System)
    requires Reachable(g, s0, s) && i != j
    requires i in s.election.nodes && i in s.election.alive && j in s.election.nodes && j in s.election.alive
    requires s.election.nodes[i].role != EM.Leader && s.election.nodes[i].currentTerm + 1 == term
    requires s.election.nodes[i].id == i && |s.election.nodes[i].peers| == 2 && s.election.nodes[j].id == j
    requires s.election.nodes[j].currentTerm < term && i in s.logs
    ensures Reachable(g, s0, s')
    ensures s' == s.(election := s'.election, logs := s.logs[i := BecomeLeader(s.logs[i], term)],
                     led := s.led[i := term])
    ensures s'.election.alive == s.election.alive
    ensures s'.election.nodes.Keys == s.election.nodes.Keys
    ensures forall k :: k in s.election.nodes && k != i && k != j ==> s'.election.nodes[k] == s.election.nodes[k]
    ensures s'.election.nodes[i].role == EM.Leader && s'.election.nodes[i].currentTerm == term
    ensures s'.election.nodes[i].id == i && s'.election.nodes[i].peers == s.election.nodes[i].peers
    ensures s'.election.nodes[j].currentTerm == term && s'.election.nodes[j].role == EM.Follower
    ensures s'.election.nodes[j].id == j && s'.election.nodes[j].peers == s.election.nodes[j].peers
  {
    hide EC.Step, Step, Reachable;
    var s1 := OpenElection(g, s0, s, i);
    var s2 := GetVote(g, s0, s1, i, j, term);
    var s3 := CountVote(g, s0, s2, i, j, term);
    s' := RunLeaderCall(g, s0, s3, i, term);
  }

  lemma RunLeaderCall(g: bool, s0: System, s: System, i: nat, term: int) returns (s': System)
    requires Reachable(g, s0, s) && EC.LeaderCall(i, term) in s.election.calls && i in s.logs
    ensures Reachable(g, s0, s')
    ensures s' == s.(election := s'.election, logs := s.logs[i := BecomeLeader(s.logs[i], term)],
                     led := s.led[i := term])
    ensures s'.election.nodes == s.election.nodes && s'.election.alive == s.election.alive
  {
    hide Reachable, BecomeLeader;
    var a := Notify(EC.LeaderCall(i, term));
    NotifyStep(s, a.call);
    s' := Step(s, a);
    OneMore(g, s0, s, a);
  }

  // ---------- one proposal, step by step ----------

  lemma ProposeOne(g: bool, s0: System, s: System, i: nat, key: string, value: string) returns (s': System)
    requires Reachable(g, s0, s) && i in s.logs && i in s.open && s.logs[i].isLeader && (g ==> AtHelm(s, i))
    ensures Reachable(g, s0, s')
    ensures var e := NewEntry(s.logs[i], AddRoom, key, value);
            s' == s.(logs := s.logs[i := LogModel.Append(s.logs[i], e)], open := s.open[i := s.open[i] + {e}],
                     canon := s'.canon)
  {
    var a := ProposeAt(i, AddRoom, key, value);
    s' := Step(s, a);
    OneMore(g, s0, s, a);
  }

  lemma SendOne(g: bool, s0: System, s: System, i: nat, at: nat) returns (s': System)
    requires Reachable(g, s0, s) && i in s.logs && i in s.open && s.open[i] != {}
    requires Valid(s.logs[i]) && at < |s.logs[i].peers| && (g ==> AtHelm(s, i))
    ensures Reachable(g, s0, s') && s' == s.(letters := s'.letters) && s.letters <= s'.letters
    ensures Outgoing(s.logs[i].peers[at], BuildRequest(s.logs[i], s.logs[i].peers[at])) in s'.letters
  {
    s' := Step(s, SendAll(i));
    assert Broadcast(s.logs[i])[at] in Broadcast(s.logs[i]);
    OneMore(g, s0, s, SendAll(i));
  }

  lemma DeliverOne(g: bool, s0: System, s: System, m: Outgoing) returns (s': System)
    requires Reachable(g, s0, s) && m in s.letters && m.dst in s.logs
    requires Valid(s.logs[m.dst]) && m.req.prevLogIndex >= -1
    ensures Reachable(g, s0, s')
    ensures var r := HandleAppendEntries(s.logs[m.dst], m.req);
            s' == s.(logs := s.logs[m.dst := r.state], letters := s.letters - multiset{m},
                     acks := s.acks + multiset{Ack(m.req.leaderID, r.resp)})
  {
    hide HandleAppendEntries;
    s' := Step(s, Ensemble.Append(m));
    OneMore(g, s0, s, Ensemble.Append(m));
  }

  lemma AnswerOne(g: bool, s0: System, s: System, k: Ack) returns (s': System)
    requires Reachable(g, s0, s) && k in s.acks && k.dst in s.logs && k.dst in s.open && s.open[k.dst] != {}
    requires Valid(s.logs[k.dst]) && k.resp.matchIndex >= -1 && k.resp.success
    ensures Reachable(g, s0, s')
    ensures s' == s.(logs := s.logs[k.dst := HandleResponse(s.logs[k.dst], k.resp).state], acks := s.acks - multiset{k})
  {
    s' := Step(s, Acknowledge(k));
    OneMore(g, s0, s, Acknowledge(k));
  }

  lemma StopWaiting(g: bool, s0: System, s: System, i: nat, e: LogEntry) returns (s': System)
    requires Reachable(g, s0, s) && i in s.logs && i in s.open && e in s.open[i] && s.logs[i].commitIndex >= e.index
    requires CanApply(s.logs[i])
    ensures Reachable(g, s0, s')
    ensures s' == s.(logs := s.logs[i := ApplyCommitted(s.logs[i])], open := s.open[i := s.open[i] - {e}],
                     finishing := s.finishing + {Receipt(i, e)})
  {
    hide ApplyCommitted, Reachable;
    var a := Confirm(i, e);
    s' := Step(s, a);
    OneMore(g, s0, s, a);
  }

  lemma SendLast(g: bool, s0: System, s: System, r: Receipt) returns (s': System)
    requires Reachable(g, s0, s) && r in s.finishing && r.node in s.logs
    requires Valid(s.logs[r.node]) && (g ==> AtHelm(s, r.node))
    ensures Reachable(g, s0, s')
    ensures s' == s.(letters := s'.letters, finishing := s.finishing - {r}, receipts := s.receipts + {r})
  {
    hide Reachable;
    s' := Step(s, Finish(r));
    OneMore(g, s0, s, Finish(r));
  }

  /** A leader with an otherwise empty log and two peers. */
  ghost predicate NewLeader(n: LogState, i: nat, peers: seq<nat>, term: int) {
    n == BecomeLeader(NewLog(i, peers), term) && |peers| == 2 && peers[0] != peers[1]
  }

  lemma LeaderIsNew(n: LogState, i: nat, peers: seq<nat>, term: int)
    requires NewLeader(n, i, peers, term)
    ensures n.isLeader && n.currentTerm == term && n.log == [] && n.peers == peers && n.id == i
    ensures n.commitIndex == -1 && n.lastApplied == -1 && Valid(n)
  {
    BecomeLeaderKeepsValid(NewLog(i, peers), term);
  }

  ghost predicate Older(n: LogState, j: nat, term: int) {
    n.id == j && Valid(n) && n.currentTerm <= term && (n.log != [] ==> n.log[0].term < term)
  }

  /** What the follower makes of the first entry of a new leader: all its own entries are gone. */
  lemma FirstEntryReplaces(n: LogState, i: nat, peers: seq<nat>, term: int, e: LogEntry, f: LogState, at: nat)
    requires NewLeader(n, i, peers, term) && e.term == term && at < 2 && Older(f, peers[at], term)
    ensures var n1 := LogModel.Append(n, e);
            && Valid(n1) && BuildRequest(n1, peers[at]).prevLogIndex == -1 && BuildRequest(n1, peers[at]).leaderID == i
            && var r := HandleAppendEntries(f, BuildRequest(n1, peers[at]));
            && r.state == f.(currentTerm := term, log := [e])
            && r.resp == AppendResponse(term, true, peers[at], 0)
  {
    BecomeLeaderKeepsValid(NewLog(i, peers), term);
    var n1 := LogModel.Append(n, e);
    ResetAt(map[], peers, 0, peers[at]);
    assert n1.nextIndex == Reset(map[], peers, 0);
    var req := BuildRequest(n1, peers[at]);
    assert req == AppendRequest(term, i, -1, -1, [e], -1);
    assert Merge(f.log, 0, [e]) == [e];
  }

  /** One answer is a majority of three. */
  lemma OneAnswerCommits(n: LogState, i: nat, peers: seq<nat>, term: int, e: LogEntry, at: nat)
    requires NewLeader(n, i, peers, term) && e.term == term && at < 2
    ensures var n1 := LogModel.Append(n, e);
            && Valid(n1)
            && var n2 := HandleResponse(n1, AppendResponse(term, true, peers[at], 0)).state;
            && n2.commitIndex == 0 && n2.log == [e] && n2.lastApplied == -1 && n2.table == EMPTY_TABLE && Valid(n2)
            && n2.isLeader && n2.currentTerm == term && n2.peers == peers
  {
    BecomeLeaderKeepsValid(NewLog(i, peers), term);
    var n1 := LogModel.Append(n, e);
    ResetAt(map[], peers, -1, peers[1 - at]);
    var n1' := n1.(matchIndex := n1.matchIndex[peers[at] := 0], nextIndex := n1.nextIndex[peers[at] := 1]);
    var list := MatchList(peers, n1'.matchIndex);
    assert list[at] == 0 && list[1 - at] == -1;
    assert list[1..] == [list[1]] && list[1..][1..] == [];
    assert CountAtLeast(list[1..], 0) == if list[1] >= 0 then 1 else 0;
    assert Replicas(n1', 0) == 2;
    HandleResponseKeeps(n1, AppendResponse(term, true, peers[at], 0));
  }

  /** The first proposal of a new leader reaches one follower, is answered, and returns true. */
  lemma CommitFirst(g: bool, s0: System, s: System, i: nat, peers: seq<nat>, at: nat, term: int,
                    key: string, value: string)
    returns (s': System)
    requires Reachable(g, s0, s) && i in s.logs && i in s.open && at < 2
    requires i in s.led && s.led[i] == term
    requires NewLeader(s.logs[i], i, peers, term) && peers[at] in s.logs && peers[at] != i
    requires Older(s.logs[peers[at]], peers[at], term)
    ensures Reachable(g, s0, s')
    ensures var e := LogEntry(term, 0, AddRoom, key, value);
            && s'.logs.Keys == s.logs.Keys && s'.open.Keys == s.open.Keys
            && (forall k :: k in s.logs && k != i && k != peers[at] ==> s'.logs[k] == s.logs[k])
            && s'.logs[i].log == [e] && s'.logs[i].lastApplied == 0
            && s'.logs[i].table == RoutingTable(map[], map[key := RoutingEntry(key, value)])
            && s'.logs[peers[at]] == s.logs[peers[at]].(currentTerm := term, log := [e])
            && s'.receipts == s.receipts + {Receipt(i, e)}
            && s'.election == s.election && s'.led == s.led
  {
    hide Reachable, HandleAppendEntries, HandleResponse, Valid, Older;
    var j := peers[at];
    var e := LogEntry(term, 0, AddRoom, key, value);
    FirstEntryReplaces(s.logs[i], i, peers, term, e, s.logs[j], at);
    OneAnswerCommits(s.logs[i], i, peers, term, e, at);
    var s1 := ProposeOne(g, s0, s, i, key, value);
    assert NewEntry(s.logs[i], AddRoom, key, value) == e;
    var s2 := SendOne(g, s0, s1, i, at);
    OlderIsValid(s.logs[j], j, term);
    var s3 := DeliverOne(g, s0, s2, Outgoing(j, BuildRequest(s1.logs[i], j)));
    var s4 := AnswerOne(g, s0, s3, Ack(i, AppendResponse(term, true, j, 0)));
    var n := s4.logs[i];
    ApplyFirst(n, e);
    var s5 := StopWaiting(g, s0, s4, i, e);
    s' := SendLast(g, s0, s5, Receipt(i, e));
  }

  lemma OlderIsValid(n: LogState, j: nat, term: int)
    requires Older(n, j, term)
    ensures Valid(n)
  {
  }

  lemma ApplyFirst(n: LogState, e: LogEntry)
    requires n.commitIndex == 0 && n.log == [e] && n.lastApplied == -1 && n.table == EMPTY_TABLE && Valid(n)
    requires e.change == AddRoom
    ensures CanApply(n)
    ensures var n' := ApplyCommitted(n);
            && n'.log == [e] && n'.lastApplied == 0 && Valid(n')
            && n'.isLeader == n.isLeader && n'.currentTerm == n.currentTerm
            && n'.table == RoutingTable(map[], map[e.key := RoutingEntry(e.key, e.value)])
  {
    var n1 := n.(lastApplied := 0, table := ApplyEntry(n.table, e));
    assert ApplyCommitted(n) == ApplyCommitted(n1) == n1;
  }

  // ---------- the two runs ----------

  /** Node 2, which knows nothing of term 1, becomes leader of term 2 with the vote of node j. */
  lemma SecondLeader(g: bool, s0: System, s: System, j: nat) returns (s': System)
    requires Reachable(g, s0, s) && 2 in s.logs && (j == 0 || j == 1)
    requires s.election.nodes.Keys == {0, 1, 2} && s.election.alive == {0, 1, 2}
    requires s.election.nodes[2] == EM.NewElection(2, [0, 1])
    requires s.election.nodes[j].id == j && s.election.nodes[j].currentTerm == 1
    ensures Reachable(g, s0, s')
    ensures s' == s.(election := s'.election, logs := s.logs[2 := BecomeLeader(s.logs[2], 2)], led := s.led[2 := 2])
    ensures s'.election.nodes.Keys == {0, 1, 2} && s'.election.alive == {0, 1, 2}
    ensures s'.election.nodes[1 - j] == s.election.nodes[1 - j]
    ensures var n := s'.election.nodes[j];
            n.role == EM.Follower && n.currentTerm == 2 && n.id == j && n.peers == s.election.nodes[j].peers
  {
    hide Reachable, EC.Step, Step;
    var s1 := OpenElection(g, s0, s, 2);
    s' := WinElection(g, s0, s1, 2, j, 2);
  }

  /** Leader Completeness and State Machine Safety fail across elections: votes ignore logs, so a node
      without a committed entry can become leader and overwrite it. Two ProposeEntry calls return true
      for different entries at the same index, and two nodes apply them; the run respects the guard. */
  lemma CommittedEntryLost() returns (s: System, a: LogEntry, b: LogEntry)
    ensures Fresh(Trio()) && Reachable(true, Trio(), s)
    ensures Receipt(0, a) in s.receipts && Receipt(2, b) in s.receipts && a.index == b.index && a != b
    ensures s.logs.Keys == {0, 1, 2} && s.logs[1].log == [b]
    ensures s.logs[0].lastApplied == s.logs[2].lastApplied && s.logs[0].table != s.logs[2].table
  {
    hide Reachable, EC.Step, Step, Fresh;
    var s0 := Trio();
    TrioIsFresh();
    assert s0.election.nodes.Keys == {0, 1, 2} && s0.logs.Keys == {0, 1, 2};
    var s1 := WinElection(true, s0, s0, 0, 1, 1);
    var s2 := CommitFirst(true, s0, s1, 0, [1, 2], 0, 1, "lobby", "alpha:9001");
    var s3 := SecondLeader(true, s0, s2, 1);
    s := CommitFirst(true, s0, s3, 2, [0, 1], 1, 2, "lobby", "beta:9002");
    a := LogEntry(1, 0, AddRoom, "lobby", "alpha:9001");
    b := LogEntry(2, 0, AddRoom, "lobby", "beta:9002");
    assert RoutingEntry("lobby", "alpha:9001") != RoutingEntry("lobby", "beta:9002");
    assert s.logs[0].table.rooms["lobby"] != s.logs[2].table.rooms["lobby"];
  }

  /** Log Matching fails without the guard: a leader that a later leader's request has overtaken still
      passes both leader checks of the program and appends an entry of a term that is not its own. */
  lemma StaleLeaderBreaksLogMatching() returns (s: System)
    ensures Fresh(Trio()) && Reachable(false, Trio(), s)
    ensures s.logs.Keys == {0, 1, 2} && !Match(s.logs[0].log, s.logs[2].log)
    ensures 0 in s.election.nodes && s.election.nodes[0].role == EM.Leader && s.logs[0].isLeader && !AtHelm(s, 0)
  {
    hide Reachable, EC.Step, Step, Fresh, HandleAppendEntries, BuildRequest, BecomeLeader;
    var s0 := Trio();
    TrioIsFresh();
    assert s0.election.nodes.Keys == {0, 1, 2} && s0.logs.Keys == {0, 1, 2};
    LeaderIsNew(BecomeLeader(NewLog(0, [1, 2]), 1), 0, [1, 2], 1);
    LeaderIsNew(BecomeLeader(NewLog(2, [0, 1]), 2), 2, [0, 1], 2);
    var s1 := WinElection(false, s0, s0, 0, 1, 1);
    var s2 := SecondLeader(false, s0, s1, 1);
    var x := LogEntry(2, 0, AddRoom, "lobby", "x");
    FirstEntryReplaces(s2.logs[2], 2, [0, 1], 2, x, s2.logs[0], 0);
    var s3 := ProposeOne(false, s0, s2, 2, "lobby", "x");
    assert NewEntry(s2.logs[2], AddRoom, "lobby", "x") == x;
    var s4 := SendOne(false, s0, s3, 2, 0);
    var s5 := DeliverOne(false, s0, s4, Outgoing(0, BuildRequest(s3.logs[2], 0)));
    var s6 := ProposeOne(false, s0, s5, 0, "lobby", "y");
    s := ProposeOne(false, s0, s6, 2, "lobby", "z");
    var l0, l2 := s.logs[0].log, s.logs[2].log;
    assert l0 == [x] + [LogEntry(2, 1, AddRoom, "lobby", "y")];
    assert l2 == [x] + [LogEntry(2, 1, AddRoom, "lobby", "z")];
    assert l0[..2][1] != l2[..2][1];
  }
}
