/** More guarded runs of a fresh trio: a proposal that is confirmed although its entry is gone, a leader whose
    commit index lies beyond its log, and what that leads to: a commit index that goes back, a clamp that is
    not the one of Figure 2, a proposal confirmed although nobody else holds its entry. Last, a node that
    fails when it applies what it has committed. */
module CommitRuns {
  import opened Types
  import opened Ordering
  import opened LogModel
  import opened Proposal
  import opened Ensemble
  import opened Counterexamples
  import F = Follower
  import EM = ElectionModel
  import EC = ElectionCluster

  // ---------- confirmed, but gone ----------

  /** A leader's first entry after one answer: what it now sends to the peer it has not heard from. */
  lemma FirstEntryAnnounced(n: LogState, i: nat, peers: seq<nat>, term: int, e: LogEntry, at: nat)
    requires NewLeader(n, i, peers, term) && e.term == term && at < 2
    ensures var n1 := LogModel.Append(n, e);
            && Valid(n1)
            && var n2 := HandleResponse(n1, AppendResponse(term, true, peers[at], 0)).state;
            && Valid(n2) && n2.log == [e] && n2.commitIndex == 0 && n2.isLeader && n2.currentTerm == term
            && n2.peers == peers
            && BuildRequest(n2, peers[1 - at]) == AppendRequest(term, i, -1, -1, [e], 0)
  {
    OneAnswerCommits(n, i, peers, term, e, at);
    var n1 := LogModel.Append(n, e);
    ResetAt(map[], peers, 0, peers[1 - at]);
    var resp := AppendResponse(term, true, peers[at], 0);
    HandleResponseKeeps(n1, resp);
    assert HandleResponse(n1, resp).state.nextIndex == n1.nextIndex[peers[at] := 1];
  }

  /** A node with one entry of an earlier term and nothing committed takes the later leader's committed one. */
  lemma Replaced(f: LogState, i: nat, term: int, e: LogEntry)
    requires e.term == term && Older(f, f.id, term) && |f.log| == 1 && f.commitIndex == -1 && f.lastApplied == -1
    ensures var r := HandleAppendEntries(f, AppendRequest(term, i, -1, -1, [e], 0));
            && r.state.log == [e] && r.state.commitIndex == 0 && r.state.lastApplied == 0 && Valid(r.state)
            && r.state.isLeader == f.isLeader && r.state.currentTerm == term
            && r.state.peers == f.peers && r.state.id == f.id
  {
    var req := AppendRequest(term, i, -1, -1, [e], 0);
    assert Merge(f.log, 0, [e]) == f.log[..0] + [e] == [e];
    F.HandleShape(f, req);
    FollowCommitState(f.(currentTerm := term, log := [e]), 0);
  }

  /** A late answer changes nothing that the waiting proposal looks at. */
  lemma LateAnswer(n: LogState, resp: AppendResponse)
    requires Valid(n) && resp.success && resp.matchIndex >= -1 && resp.term <= n.currentTerm
    requires n.commitIndex >= |n.log| - 1
    ensures var n' := HandleResponse(n, resp).state;
            && n' == n.(matchIndex := n'.matchIndex, nextIndex := n'.nextIndex) && Valid(n')
  {
  }

  /** Node 0's proposal waits while node 2 is elected, commits its own first entry with node 1, and tells
      node 0. The wait then sees its index committed and reports success for an entry that is in no log. */
  lemma ConfirmedButGone() returns (s: System, a: LogEntry)
    ensures Fresh(Trio()) && Reachable(true, Trio(), s)
    ensures Receipt(0, a) in s.finishing
    ensures forall j :: j in s.logs ==> a !in s.logs[j].log && s.logs[j].commitIndex < |s.logs[j].log|
  {
    hide Reachable, EC.Step, Step, Fresh, HandleAppendEntries, HandleResponse, Valid, Older, BuildRequest;
    var s0 := Trio();
    TrioIsFresh();
    assert s0.election.nodes.Keys == {0, 1, 2} && s0.logs.Keys == {0, 1, 2};
    a := LogEntry(1, 0, AddRoom, "lobby", "alpha:9001");
    var b := LogEntry(2, 0, AddRoom, "lobby", "beta:9002");
    var s1 := WinElection(true, s0, s0, 0, 1, 1);
    var s4 := FirstDelivery(s0, s1, a);
    var s5 := SecondLeader(true, s0, s4, 1);
    LeaderIsNew(s1.logs[0], 0, [1, 2], 1);
    OneOldEntry(s5.logs[0], 0, a);
    OneOldEntry(s5.logs[1], 1, a);
    assert NewLeader(s5.logs[2], 2, [0, 1], 2);
    var s9 := SecondCommits(s0, s5, a, b);
    s := GoneConfirmed(s0, s9, a, b);
  }

  lemma FirstDelivery(s0: System, s: System, a: LogEntry) returns (s': System)
    requires Reachable(true, s0, s) && s.logs.Keys == {0, 1, 2} && s.open.Keys == {0, 1, 2}
    requires 0 in s.led && s.led[0] == 1 && NewLeader(s.logs[0], 0, [1, 2], 1) && s.logs[1] == NewLog(1, [0, 2])
    requires a == LogEntry(1, 0, AddRoom, "lobby", "alpha:9001")
    ensures Reachable(true, s0, s')
    ensures s'.logs == s.logs[0 := LogModel.Append(s.logs[0], a)][1 := s.logs[1].(currentTerm := 1, log := [a])]
    ensures s'.open == s.open[0 := s.open[0] + {a}] && s'.election == s.election && s'.led == s.led
    ensures Ack(0, AppendResponse(1, true, 1, 0)) in s'.acks
  {
    hide Reachable, HandleAppendEntries, Step, BuildRequest, BecomeLeader;
    LeaderIsNew(s.logs[0], 0, [1, 2], 1);
    FirstEntryReplaces(s.logs[0], 0, [1, 2], 1, a, s.logs[1], 0);
    var s2 := ProposeOne(true, s0, s, 0, "lobby", "alpha:9001");
    assert NewEntry(s.logs[0], AddRoom, "lobby", "alpha:9001") == a;
    var s3 := SendOne(true, s0, s2, 0, 0);
    s' := DeliverOne(true, s0, s3, Outgoing(1, BuildRequest(s2.logs[0], 1)));
  }

  lemma OneOldEntry(n: LogState, j: nat, a: LogEntry)
    requires n.id == j && Valid(n) && n.currentTerm == 1 && n.log == [a] && a.term == 1
    ensures Older(n, j, 2)
  {
  }

  /** Node 2 commits b with node 1, which loses a. */
  lemma SecondCommits(s0: System, s: System, a: LogEntry, b: LogEntry) returns (s': System)
    requires Reachable(true, s0, s) && s.logs.Keys == {0, 1, 2} && s.open.Keys == {0, 1, 2}
    requires 2 in s.led && s.led[2] == 2 && NewLeader(s.logs[2], 2, [0, 1], 2)
    requires Older(s.logs[1], 1, 2) && s.logs[1].commitIndex == -1
    requires b == LogEntry(2, 0, AddRoom, "lobby", "beta:9002")
    ensures Reachable(true, s0, s')
    ensures s'.logs.Keys == {0, 1, 2} && s'.logs[0] == s.logs[0]
    ensures s'.logs[1] == s.logs[1].(currentTerm := 2, log := [b])
    ensures var n := s'.logs[2];
            && n.log == [b] && n.commitIndex == 0 && n.isLeader && n.currentTerm == 2 && n.peers == [0, 1] && Valid(n)
            && BuildRequest(n, 0) == AppendRequest(2, 2, -1, -1, [b], 0)
    ensures s'.open == s.open[2 := s.open[2] + {b}] && s'.led == s.led && s.acks <= s'.acks
  {
    hide Reachable, HandleAppendEntries, HandleResponse, Step, BuildRequest, BecomeLeader, Older, Valid;
    LeaderIsNew(s.logs[2], 2, [0, 1], 2);
    FirstEntryReplaces(s.logs[2], 2, [0, 1], 2, b, s.logs[1], 1);
    FirstEntryAnnounced(s.logs[2], 2, [0, 1], 2, b, 1);
    OlderIsValid(s.logs[1], 1, 2);
    var s1 := ProposeOne(true, s0, s, 2, "lobby", "beta:9002");
    assert NewEntry(s.logs[2], AddRoom, "lobby", "beta:9002") == b;
    var s2 := SendOne(true, s0, s1, 2, 1);
    var s3 := DeliverOne(true, s0, s2, Outgoing(1, BuildRequest(s1.logs[2], 1)));
    s' := AnswerOne(true, s0, s3, Ack(2, AppendResponse(2, true, 1, 0)));
  }

  /** Node 0 is told of b, and its proposal of a is answered late. */
  lemma GoneConfirmed(s0: System, s: System, a: LogEntry, b: LogEntry) returns (s': System)
    requires Reachable(true, s0, s) && s.logs.Keys == {0, 1, 2} && s.open.Keys == {0, 1, 2}
    requires 2 in s.led && s.led[2] == 2 && s.open[2] != {} && a in s.open[0]
    requires a.index == 0 && a.term == 1 && b.term == 2
    requires var n := s.logs[2];
             && n.log == [b] && n.commitIndex == 0 && n.isLeader && n.currentTerm == 2 && n.peers == [0, 1] && Valid(n)
             && BuildRequest(n, 0) == AppendRequest(2, 2, -1, -1, [b], 0)
    requires s.logs[1].log == [b] && s.logs[1].commitIndex == -1
    requires Older(s.logs[0], 0, 2) && |s.logs[0].log| == 1
    requires s.logs[0].commitIndex == -1 && s.logs[0].lastApplied == -1
    requires Ack(0, AppendResponse(1, true, 1, 0)) in s.acks
    ensures Reachable(true, s0, s') && Receipt(0, a) in s'.finishing
    ensures forall j :: j in s'.logs ==> a !in s'.logs[j].log && s'.logs[j].commitIndex < |s'.logs[j].log|
  {
    hide Reachable, HandleAppendEntries, HandleResponse, Step, BuildRequest, Valid, ApplyCommitted;
    Replaced(s.logs[0], 2, 2, b);
    var s1 := SendOne(true, s0, s, 2, 0);
    var s2 := DeliverOne(true, s0, s1, Outgoing(0, AppendRequest(2, 2, -1, -1, [b], 0)));
    LateAnswer(s2.logs[0], AppendResponse(1, true, 1, 0));
    var s3 := AnswerOne(true, s0, s2, Ack(0, AppendResponse(1, true, 1, 0)));
    ApplyCommittedFolds(s3.logs[0]);
    s' := StopWaiting(true, s0, s3, 0, a);
    assert a != b;
  }

  // ---------- a commit index beyond the log, and what it does ----------

  /** Node 0 leads in a term and sends node 1 what follows `next`. */
  ghost predicate Leads(n: LogState, term: int, log: seq<LogEntry>, commit: int, applied: int, next: nat) {
    && n.id == 0 && n.peers == [1, 2] && n.isLeader && n.currentTerm == term && Valid(n)
    && n.log == log && n.commitIndex == commit && n.lastApplied == applied && Lookup(n.nextIndex, 1) == next
  }

  ghost predicate Follows(f: LogState, term: int, log: seq<LogEntry>, commit: int) {
    f.id == 1 && f.currentTerm == term && f.log == log && f.commitIndex == commit && f.lastApplied == commit && Valid(f)
  }

  function Early(k: nat): LogEntry {
    LogEntry(1, k, AddRoom, "lobby", "alpha:9001")
  }

  const THREE := [Early(0), Early(1), Early(2)]
  const FOUR := THREE + [Early(3)]

  /** Everybody is there, and the election stands as given. */
  ghost predicate Stage(s0: System, s: System, led: map<nat, int>, election: EC.Cluster) {
    && Reachable(true, s0, s) && s.logs.Keys == {0, 1, 2} && s.open.Keys == {0, 1, 2}
    && s.led == led && s.election == election
  }

  /** One answer that acknowledges the whole log commits it, whatever term it is of. */
  lemma AnswerCommitsAll(n: LogState, term: int, last: nat)
    requires n.peers == [1, 2] && Valid(n) && last == |n.log| - 1 && n.commitIndex < last
    requires n.log[last].term == n.currentTerm >= term
    ensures HandleResponse(n, AppendResponse(term, true, 1, last)) ==
            Response(n.(matchIndex := n.matchIndex[1 := last], nextIndex := n.nextIndex[1 := last + 1],
                        commitIndex := last), None)
  {
    var n' := n.(matchIndex := n.matchIndex[1 := last], nextIndex := n.nextIndex[1 := last + 1]);
    var list := MatchList(n'.peers, n'.matchIndex);
    assert list[0] == last && CountAtLeast(list, last) >= 1;
    assert Committable(n', last);
  }

  lemma TakesBatch(f: LogState)
    requires f.id == 1 && f.currentTerm <= 1 && f.commitIndex == -1 && Valid(f) && (f.log == [] || f.log == THREE)
    ensures HandleAppendEntries(f, AppendRequest(1, 0, -1, -1, THREE, -1)) ==
            Reply(f.(currentTerm := 1, log := THREE), AppendResponse(1, true, 1, 2))
  {
    assert Merge(f.log, 0, THREE) == THREE by {
      if f.log == THREE { F.MergeSame(THREE, 0, THREE); }
    }
  }

  /** Node 0 appends three entries. */
  lemma BatchProposed(s0: System, s: System) returns (s': System)
    requires Stage(s0, s, s.led, s.election) && 0 in s.led && s.led[0] == 1
    requires NewLeader(s.logs[0], 0, [1, 2], 1)
    ensures Stage(s0, s', s.led, s.election) && s'.open[0] != {}
    ensures s'.logs == s.logs[0 := s.logs[0].(log := THREE)]
    ensures s'.acks == s.acks && s'.finishing == s.finishing && s'.receipts == s.receipts
    ensures s'.open == s.open[0 := s.open[0] + {Early(0), Early(1), Early(2)}]
  {
    hide Reachable, Step, BuildRequest, BecomeLeader;
    BatchBuilt(s.logs[0]);
    var s1 := ProposeOne(true, s0, s, 0, "lobby", "alpha:9001");
    var s2 := ProposeOne(true, s0, s1, 0, "lobby", "alpha:9001");
    s' := ProposeOne(true, s0, s2, 0, "lobby", "alpha:9001");
    assert s.open[0] + {Early(0)} + {Early(1)} + {Early(2)} == s.open[0] + {Early(0), Early(1), Early(2)};
  }

  /** It sends them, and node 1 takes them. */
  lemma BatchSent(s0: System, s: System) returns (s': System)
    requires Stage(s0, s, s.led, s.election) && 0 in s.led && s.led[0] == 1 && s.open[0] != {}
    requires NewLeader(s.logs[0].(log := []), 0, [1, 2], 1) && s.logs[0].log == THREE
    requires var f := s.logs[1];
             f.id == 1 && f.currentTerm <= 1 && f.commitIndex == -1 && Valid(f) && (f.log == [] || f.log == THREE)
    ensures Stage(s0, s', s.led, s.election) && s'.open == s.open
    ensures s'.logs == s.logs[1 := s.logs[1].(currentTerm := 1, log := THREE)]
    ensures s'.acks == s.acks + multiset{Ack(0, AppendResponse(1, true, 1, 2))}
    ensures s'.finishing == s.finishing && s'.receipts == s.receipts
  {
    hide Reachable, HandleAppendEntries, Step, BuildRequest, BecomeLeader;
    var n := s.logs[0].(log := []);
    BatchBuilt(n);
    assert n.(log := THREE) == s.logs[0];
    TakesBatch(s.logs[1]);
    var s1 := SendOne(true, s0, s, 0, 0);
    s' := DeliverOne(true, s0, s1, Outgoing(1, AppendRequest(1, 0, -1, -1, THREE, -1)));
  }

  /** It does so twice before it handles an answer: an acknowledgement stays on its way. */
  lemma Batch(s0: System, s: System) returns (s': System)
    requires Stage(s0, s, s.led, s.election) && 0 in s.led && s.led[0] == 1
    requires NewLeader(s.logs[0], 0, [1, 2], 1) && s.logs[1] == NewLog(1, [0, 2])
    ensures Stage(s0, s', s.led, s.election) && s'.logs[2] == s.logs[2]
    ensures Leads(s'.logs[0], 1, THREE, 2, -1, 3) && Follows(s'.logs[1], 1, THREE, -1)
    ensures Ack(0, AppendResponse(1, true, 1, 2)) in s'.acks && Early(0) in s'.open[0]
  {
    hide Reachable, HandleResponse, Step, BecomeLeader, NewLeader;
    ghost var ack := Ack(0, AppendResponse(1, true, 1, 2));
    BatchBuilt(s.logs[0]);
    var s1 := BatchProposed(s0, s);
    assert s1.logs[0].(log := []) == s.logs[0];
    var s2 := BatchSent(s0, s1);
    var s3 := BatchSent(s0, s2);
    assert s3.acks[ack] >= 2;
    AnswerCommitsAll(s3.logs[0], 1, 2);
    s' := AnswerOne(true, s0, s3, ack);
    assert s'.acks[ack] >= 1;
  }

  lemma BatchBuilt(n: LogState)
    requires NewLeader(n, 0, [1, 2], 1)
    ensures n.isLeader && n.currentTerm == 1 && n.log == [] && n.peers == [1, 2] && n.id == 0
    ensures n.commitIndex == -1 && n.lastApplied == -1 && Valid(n)
    ensures BuildRequest(n.(log := THREE), 1) == AppendRequest(1, 0, -1, -1, THREE, -1)
    ensures var e := NewEntry(n, AddRoom, "lobby", "alpha:9001");
            var n1 := LogModel.Append(n, e);
            var n2 := LogModel.Append(n1, NewEntry(n1, AddRoom, "lobby", "alpha:9001"));
            LogModel.Append(n2, NewEntry(n2, AddRoom, "lobby", "alpha:9001")) == n.(log := THREE)
    ensures var e := NewEntry(n, AddRoom, "lobby", "alpha:9001");
            var n1 := LogModel.Append(n, e);
            var e1 := NewEntry(n1, AddRoom, "lobby", "alpha:9001");
            var n2 := LogModel.Append(n1, e1);
            e == Early(0) && e1 == Early(1) && NewEntry(n2, AddRoom, "lobby", "alpha:9001") == Early(2)
  {
    LeaderIsNew(n, 0, [1, 2], 1);
    ResetAt(map[], [1, 2], 0, 1);
  }

  lemma TakesFourth(f: LogState)
    requires Follows(f, 1, THREE, -1)
    ensures var r := HandleAppendEntries(f, AppendRequest(1, 0, 2, 1, [Early(3)], 2));
            && Follows(r.state, 1, FOUR, 2) && r.resp == AppendResponse(1, true, 1, 3)
  {
    var req := AppendRequest(1, 0, 2, 1, [Early(3)], 2);
    assert Merge(f.log, 3, [Early(3)]) == FOUR;
    F.HandleShape(f, req);
    FollowCommitState(f.(log := FOUR), 2);
  }

  lemma FourthBuilt(n: LogState)
    requires Leads(n, 1, THREE, 2, -1, 3)
    ensures NewEntry(n, AddRoom, "lobby", "alpha:9001") == Early(3)
    ensures BuildRequest(LogModel.Append(n, Early(3)), 1) == AppendRequest(1, 0, 2, 1, [Early(3)], 2)
  {
    assert FOUR[3..] == [Early(3)];
  }

  lemma AppliesFour(n: LogState)
    requires Valid(n) && n.log == FOUR && n.commitIndex == 3 && n.lastApplied == -1
    ensures CanApply(n) && ApplyCommitted(n) == n.(lastApplied := 3, table := ApplyCommitted(n).table)
  {
    ApplyCommittedFolds(n);
  }

  /** A fourth entry is committed and applied; its follower knows of three. */
  lemma Fourth(s0: System, s: System) returns (s': System)
    requires Stage(s0, s, s.led, s.election) && 0 in s.led && s.led[0] == 1
    requires Leads(s.logs[0], 1, THREE, 2, -1, 3) && Follows(s.logs[1], 1, THREE, -1)
    requires Ack(0, AppendResponse(1, true, 1, 2)) in s.acks
    ensures Stage(s0, s', s.led, s.election) && s'.logs[2] == s.logs[2]
    ensures Leads(s'.logs[0], 1, FOUR, 3, 3, 4) && Follows(s'.logs[1], 1, FOUR, 2)
    ensures Ack(0, AppendResponse(1, true, 1, 2)) in s'.acks
  {
    hide Reachable, HandleAppendEntries, HandleResponse, Step, BuildRequest, ApplyCommitted;
    FourthBuilt(s.logs[0]);
    TakesFourth(s.logs[1]);
    var s1 := ProposeOne(true, s0, s, 0, "lobby", "alpha:9001");
    var s2 := SendOne(true, s0, s1, 0, 0);
    var s3 := DeliverOne(true, s0, s2, Outgoing(1, AppendRequest(1, 0, 2, 1, [Early(3)], 2)));
    AnswerCommitsAll(s3.logs[0], 1, 3);
    var s4 := AnswerOne(true, s0, s3, Ack(0, AppendResponse(1, true, 1, 3)));
    AppliesFour(s4.logs[0]);
    s' := StopWaiting(true, s0, s4, 0, Early(3));
  }

  function Usurper(): LogEntry {
    LogEntry(2, 0, AddRoom, "lobby", "beta:9002")
  }

  lemma IsOlder(f: LogState, j: nat)
    requires f.id == j && f.currentTerm == 1 && f.log == FOUR && Valid(f)
    ensures Older(f, j, 2)
  {
  }

  /** Node 2's first entry replaces whatever the other nodes hold; their commit indices stay. */
  lemma Usurped(s0: System, s: System) returns (s': System)
    requires Stage(s0, s, s.led, s.election) && 2 in s.led && s.led[2] == 2
    requires NewLeader(s.logs[2], 2, [0, 1], 2) && Older(s.logs[0], 0, 2) && Older(s.logs[1], 1, 2)
    ensures Stage(s0, s', s.led, s.election)
    ensures s'.logs == map[0 := s.logs[0].(currentTerm := 2, log := [Usurper()]),
                           1 := s.logs[1].(currentTerm := 2, log := [Usurper()]),
                           2 := s.logs[2].(log := [Usurper()])]
    ensures s'.open == s.open[2 := s.open[2] + {Usurper()}]
    ensures s'.acks == s.acks + multiset{Ack(2, AppendResponse(2, true, 0, 0)), Ack(2, AppendResponse(2, true, 1, 0))}
    ensures s'.finishing == s.finishing && s'.receipts == s.receipts
  {
    hide Reachable, HandleAppendEntries, Step, BuildRequest, BecomeLeader, Older;
    var n := s.logs[2];
    LeaderIsNew(n, 2, [0, 1], 2);
    OlderIsValid(s.logs[0], 0, 2);
    OlderIsValid(s.logs[1], 1, 2);
    FirstEntryReplaces(n, 2, [0, 1], 2, Usurper(), s.logs[0], 0);
    FirstEntryReplaces(n, 2, [0, 1], 2, Usurper(), s.logs[1], 1);
    var s1 := ProposeOne(true, s0, s, 2, "lobby", "beta:9002");
    assert NewEntry(n, AddRoom, "lobby", "beta:9002") == Usurper();
    hide Valid;
    var s2 := SendOne(true, s0, s1, 2, 0);
    var s3 := DeliverOne(true, s0, s2, Outgoing(0, BuildRequest(s1.logs[2], 0)));
    var s4 := SendOne(true, s0, s3, 2, 1);
    s' := DeliverOne(true, s0, s4, Outgoing(1, BuildRequest(s1.logs[2], 1)));
    assert s'.logs.Keys == {0, 1, 2} && s'.logs[2] == s.logs[2].(log := [Usurper()]);
  }

  /** The four entries are gone on both other nodes. */
  lemma CutBack(s0: System, s: System) returns (s': System)
    requires Stage(s0, s, s.led, s.election) && 2 in s.led && s.led[2] == 2
    requires Leads(s.logs[0], 1, FOUR, 3, 3, 4) && Follows(s.logs[1], 1, FOUR, 2)
    requires NewLeader(s.logs[2], 2, [0, 1], 2)
    requires Ack(0, AppendResponse(1, true, 1, 2)) in s.acks
    ensures Stage(s0, s', s.led, s.election) && s'.logs[2].log == [Usurper()]
    ensures Leads(s'.logs[0], 2, [Usurper()], 3, 3, 4) && Follows(s'.logs[1], 2, [Usurper()], 2)
    ensures Ack(0, AppendResponse(1, true, 1, 2)) in s'.acks
  {
    IsOlder(s.logs[0], 0);
    IsOlder(s.logs[1], 1);
    hide NewLeader, Older, Stage;
    s' := Usurped(s0, s);
  }

  lemma BackInOffice(n: LogState)
    requires Leads(n, 2, [Usurper()], 3, 3, 4)
    ensures Leads(BecomeLeader(n, 3), 3, [Usurper()], 3, 3, 1)
  {
    BecomeLeaderKeepsValid(n, 3);
    ResetAt(n.nextIndex, n.peers, |n.log|, 1);
  }

  /** Node 0 has been elected by node 1 and has committed four entries. */
  lemma FirstReign() returns (s: System)
    ensures Stage(Trio(), s, map[0 := 1], s.election) && s.election.nodes.Keys == {0, 1, 2} == s.election.alive
    ensures Leads(s.logs[0], 1, FOUR, 3, 3, 4) && Follows(s.logs[1], 1, FOUR, 2) && s.logs[2] == NewLog(2, [0, 1])
    ensures Ack(0, AppendResponse(1, true, 1, 2)) in s.acks
    ensures forall j :: j == 0 || j == 1 ==>
              var n := s.election.nodes[j]; n.id == j && n.currentTerm == 1 && |n.peers| == 2
    ensures s.election.nodes[2] == EM.NewElection(2, [0, 1])
  {
    hide Reachable, EC.Step, Step, Fresh, Leads, Follows, BecomeLeader;
    var s0 := Trio();
    TrioIsFresh();
    assert s0.election.nodes.Keys == {0, 1, 2} && s0.logs.Keys == {0, 1, 2} && s0.open.Keys == {0, 1, 2};
    s := WinElection(true, s0, s0, 0, 1, 1);
    s := Batch(s0, s);
    s := Fourth(s0, s);
  }

  /** A node is at the helm with its commit index beyond its log, as far as AnyAnswerWillDo asks for. */
  lemma Overdrawn() returns (s: System)
    ensures Fresh(Trio()) && Reachable(true, Trio(), s)
    ensures s.logs.Keys == {0, 1, 2} && s.open.Keys == {0, 1, 2} && AtHelm(s, 0) && 0 in s.led && s.led[0] == 3
    ensures Leads(s.logs[0], 3, [Usurper()], 3, 3, 1) && s.logs[0].commitIndex >= |s.logs[0].log|
    ensures Follows(s.logs[1], 2, [Usurper()], 2) && s.logs[2].log == [Usurper()]
    ensures Ack(0, AppendResponse(1, true, 1, 2)) in s.acks
  {
    hide Reachable, EC.Step, Step, Fresh, Leads, Follows, BecomeLeader, Trio;
    TrioIsFresh();
    var s3 := FirstReign();
    var s4 := SecondLeader(true, Trio(), s3, 0);
    var s5 := CutBack(Trio(), s4);
    s := WinElection(true, Trio(), s5, 0, 1, 3);
    BackInOffice(s5.logs[0]);
    LeadsFacts(s.logs[0]);
  }

  lemma LeadsFacts(n: LogState)
    requires Leads(n, 3, [Usurper()], 3, 3, 1)
    ensures n.isLeader && n.currentTerm == 3 && n.commitIndex == 3 && n.lastApplied == 3 && n.log == [Usurper()]
  {
  }

  // ---------- what the overdrawn leader does ----------

  function Third(index: nat): LogEntry {
    LogEntry(3, index, AddRoom, "lobby", "gamma:9003")
  }

  lemma ThirdBuilt(n: LogState)
    requires Leads(n, 3, [Usurper()], 3, 3, 1)
    ensures NewEntry(n, AddRoom, "lobby", "gamma:9003") == Third(1)
    ensures var n1 := LogModel.Append(n, Third(1));
            && n1.log == [Usurper(), Third(1)]
            && BuildRequest(n1, 1) == AppendRequest(3, 0, 0, 2, [Third(1)], 3)
            && NewEntry(n1, AddRoom, "lobby", "gamma:9003") == Third(2)
            && var n2 := LogModel.Append(n1, Third(2));
            && n2.log == [Usurper(), Third(1), Third(2)]
            && BuildRequest(n2, 1) == AppendRequest(3, 0, 0, 2, [Third(1), Third(2)], 3)
  {
    assert [Usurper(), Third(1)][1..] == [Third(1)];
    assert [Usurper(), Third(1), Third(2)][1..] == [Third(1), Third(2)];
  }

  /** A commit index goes back: within the guard, a request is on its way that lowers its receiver's. */
  lemma CommitIndexGoesBack() returns (s: System, m: Outgoing)
    ensures Fresh(Trio()) && Reachable(true, Trio(), s)
    ensures m in s.letters && m.dst in s.logs && Valid(s.logs[m.dst]) && m.req.prevLogIndex >= -1
    ensures HandleAppendEntries(s.logs[m.dst], m.req).state.commitIndex < s.logs[m.dst].commitIndex
  {
    hide Reachable, Step, Fresh, HandleAppendEntries, BuildRequest;
    s := Overdrawn();
    ThirdBuilt(s.logs[0]);
    s := ProposeOne(true, Trio(), s, 0, "lobby", "gamma:9003");
    s := SendOne(true, Trio(), s, 0, 0);
    m := Outgoing(1, AppendRequest(3, 0, 0, 2, [Third(1)], 3));
    F.CommitDecreasesIff(s.logs[1], m.req);
  }

  /** A request is on its way that its receiver clamps to more than Figure 2 does. */
  lemma ClampDiffersFromFigure2() returns (s: System, m: Outgoing)
    ensures Fresh(Trio()) && Reachable(true, Trio(), s)
    ensures m in s.letters && m.dst in s.logs && Valid(s.logs[m.dst]) && m.req.prevLogIndex >= -1
    ensures var f := s.logs[m.dst];
            && F.Accepts(f, m.req) && m.req.leaderCommit > f.commitIndex
            && HandleAppendEntries(f, m.req).state.commitIndex > Min(m.req.leaderCommit, F.LastNew(m.req))
  {
    hide Reachable, Step, Fresh, HandleAppendEntries, BuildRequest;
    s := Overdrawn();
    ThirdBuilt(s.logs[0]);
    TakesLonger(s.logs[1]);
    s := ProposeOne(true, Trio(), s, 0, "lobby", "gamma:9003");
    s := SendOne(true, Trio(), s, 0, 0);
    m := Outgoing(1, AppendRequest(3, 0, 0, 2, [Third(1)], 3));
    assert m in s.letters;
    s := ProposeOne(true, Trio(), s, 0, "lobby", "gamma:9003");
    s := SendOne(true, Trio(), s, 0, 0);
    var longer := Outgoing(1, AppendRequest(3, 0, 0, 2, [Third(1), Third(2)], 3));
    assert m != longer && m in s.letters;
    s := DeliverOne(true, Trio(), s, longer);
    NothingConflicts(s.logs[1]);
    F.CommitAfter(s.logs[1], m.req);
  }

  lemma TakesLonger(f: LogState)
    requires Follows(f, 2, [Usurper()], 2)
    ensures var r := HandleAppendEntries(f, AppendRequest(3, 0, 0, 2, [Third(1), Third(2)], 3));
            && Valid(r.state) && r.state.currentTerm == 3 && r.state.commitIndex == 2
            && r.state.log == [Usurper(), Third(1), Third(2)]
  {
    var req := AppendRequest(3, 0, 0, 2, [Third(1), Third(2)], 3);
    assert Merge(f.log, 1, req.entries) == f.log + req.entries == [Usurper(), Third(1), Third(2)];
    F.HandleShape(f, req);
    F.CommitAfter(f, req);
  }

  lemma NothingConflicts(f: LogState)
    requires f.log == [Usurper(), Third(1), Third(2)]
    ensures !F.Conflicts(f.log, 1, [Third(1)])
  {
  }

  /** A proposal is confirmed although only its own node holds the entry. */
  lemma ConfirmedAlone() returns (s: System, e: LogEntry)
    ensures Fresh(Trio()) && Reachable(true, Trio(), s)
    ensures Receipt(0, e) in s.finishing && s.logs.Keys == {0, 1, 2}
    ensures forall j :: j in s.logs ==> (e in s.logs[j].log <==> j == 0)
  {
    hide Reachable, Step, Fresh, HandleResponse, BuildRequest, ApplyCommitted;
    s := Overdrawn();
    ThirdBuilt(s.logs[0]);
    e := Third(1);
    s := ProposeOne(true, Trio(), s, 0, "lobby", "gamma:9003");
    var ack := Ack(0, AppendResponse(1, true, 1, 2));
    LateAnswer(s.logs[0], ack.resp);
    s := AnswerOne(true, Trio(), s, ack);
    ApplyCommittedFolds(s.logs[0]);
    s := StopWaiting(true, Trio(), s, 0, e);
  }

  // ---------- applying past the end ----------

  /** One answer commits three entries; before the waiting proposal looks, a later leader's request replaces
      all three by one. The proposal then finds its index committed and applies past the end of the log. */
  lemma ApplyingFails() returns (s: System)
    ensures Fresh(Trio()) && Reachable(true, Trio(), s)
    ensures Enabled(s, Confirm(0, Early(0))) && !Safe(s, Confirm(0, Early(0)))
  {
    hide Reachable, EC.Step, Step, Fresh, BecomeLeader, HandleAppendEntries, BuildRequest;
    s := Trio();
    TrioIsFresh();
    assert s.election.nodes.Keys == {0, 1, 2} && s.logs.Keys == {0, 1, 2} && s.open.Keys == {0, 1, 2};
    s := WinElection(true, Trio(), s, 0, 1, 1);
    s := Batch(Trio(), s);
    s := SecondLeader(true, Trio(), s, 1);
    var n := s.logs[2];
    LeaderIsNew(n, 2, [0, 1], 2);
    assert Older(s.logs[0], 0, 2) && THREE[0].term == 1;
    FirstEntryReplaces(n, 2, [0, 1], 2, Usurper(), s.logs[0], 0);
    s := ProposeOne(true, Trio(), s, 2, "lobby", "beta:9002");
    assert NewEntry(n, AddRoom, "lobby", "beta:9002") == Usurper();
    var req := BuildRequest(s.logs[2], 0);
    s := SendOne(true, Trio(), s, 2, 0);
    s := DeliverOne(true, Trio(), s, Outgoing(0, req));
  }
}
