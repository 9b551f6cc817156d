/** What an epoch guarantees, over whole runs: commitment, acknowledgements, applied tables. */
module Commitment {
  import opened Types
  import opened Quorum
  import opened LogModel
  import opened LogFacts
  import opened Ensemble
  import opened EpochLog
  import opened Epoch
  import opened Proposal
  import CommitScan
  import F = Follower

  ghost predicate AllAllowed(run: seq<Action>, c: Reign) {
    forall k :: 0 <= k < |run| ==> Allowed(run[k], c)
  }

  function LeaderLogIn(s: System, c: Reign): seq<LogEntry>
    requires c.leader in s.logs
  {
    s.logs[c.leader].log
  }

  lemma LaterTrans(a: map<nat, LogState>, la: seq<LogEntry>, b: map<nat, LogState>, lb: seq<LogEntry>,
                   d: map<nat, LogState>, ld: seq<LogEntry>)
    requires Later(a, la, b, lb) && Later(b, lb, d, ld)
    ensures Later(a, la, d, ld)
  {
    forall i | i in a ensures NodeLater(a[i], la, d[i], ld) {
      assert NodeLater(a[i], la, b[i], lb) && NodeLater(b[i], lb, d[i], ld);
    }
  }

  lemma {:induction false} RunKeeps(s: System, c: Reign, run: seq<Action>)
    requires Inv(s, c) && Possible(s, run) && AllAllowed(run, c)
    ensures var e := Exec(s, run);
            && Inv(e, c) && c.leader in s.logs && c.leader in e.logs
            && Later(s.logs, LeaderLogIn(s, c), e.logs, LeaderLogIn(e, c))
    decreases |run|
  {
    hide Inv, Step, Enabled, Safe, Later, Allowed;
    LeaderFacts(s, c);
    if run == [] {
      SameLater(s, c);
    } else {
      var s1 := Step(s, run[0]);
      StepKeeps(s, c, run[0]);
      RunKeeps(s1, c, run[1..]);
      var e := Exec(s, run);
      LaterTrans(s.logs, LeaderLogIn(s, c), s1.logs, LeaderLogIn(s1, c), e.logs, LeaderLogIn(e, c));
    }
  }

  ghost predicate Reaches(s: System, c: Reign, s': System) {
    exists run :: Possible(s, run) && AllAllowed(run, c) && s' == Exec(s, run)
  }

  /** An epoch begins in state s; `mid` is any state some run of it leads to, `end` any later one. */
  ghost predicate InEpoch(s: System, c: Reign, mid: System, end: System) {
    Starts(s, c.leader, c.term) && c == ReignOf(s, c.leader) && Reaches(s, c, mid) && Reaches(mid, c, end)
  }

  lemma ReachedIsLater(s: System, c: Reign, s': System)
    requires Inv(s, c) && Reaches(s, c, s')
    ensures Inv(s', c) && c.leader in s.logs && c.leader in s'.logs
    ensures Later(s.logs, LeaderLogIn(s, c), s'.logs, LeaderLogIn(s', c))
  {
    hide Inv, Later, Possible, Exec;
    var run :| Possible(s, run) && AllAllowed(run, c) && s' == Exec(s, run);
    RunKeeps(s, c, run);
  }

  lemma BothPoints(s: System, c: Reign, mid: System, end: System)
    requires InEpoch(s, c, mid, end)
    ensures c.leader in s.logs && c.leader in mid.logs && c.leader in end.logs
    ensures Inv(s, c) && Inv(mid, c) && Inv(end, c)
    ensures Later(mid.logs, LeaderLogIn(mid, c), end.logs, LeaderLogIn(end, c))
    ensures Later(s.logs, LeaderLogIn(s, c), mid.logs, LeaderLogIn(mid, c))
  {
    hide Inv, Later, Reaches;
    StartIsOk(s, c.leader, c.term);
    ReachedIsLater(s, c, mid);
    ReachedIsLater(mid, c, end);
  }

  /** Nothing the program indexes is ever out of range in an epoch. */
  lemma EpochNeverFails(s: System, c: Reign, mid: System, a: Action)
    requires InEpoch(s, c, mid, mid) && Enabled(mid, a) && Allowed(a, c)
    ensures Safe(mid, a)
    ensures forall i :: i in mid.logs ==> mid.logs[i].lastApplied <= mid.logs[i].commitIndex < |mid.logs[i].log|
  {
    hide InEpoch, Later, Step, LeaderOk, LetterOk, AckOk, PeerOk, CallsOk, CommitOk, Aligned, Allowed, Safe, Enabled;
    BothPoints(s, c, mid, mid);
    StepKeeps(mid, c, a);
    forall i | i in mid.logs ensures mid.logs[i].lastApplied <= mid.logs[i].commitIndex < |mid.logs[i].log| {
      assert NodeOk(mid.logs[i], mid.logs[c.leader].log, c.term);
    }
  }

  /** Commit soundness and durability: whenever the leader's commit index has moved, a majority holds the
      leader's log through it, and the same nodes still hold it at every later point. */
  lemma CommitIsDurable(s: System, c: Reign, mid: System, end: System)
    requires InEpoch(s, c, mid, end)
    ensures c.leader in s.logs && c.leader in mid.logs && c.leader in end.logs
    ensures var n, l, l' := mid.logs[c.leader].commitIndex, mid.logs[c.leader].log, end.logs[c.leader].log;
            && n >= s.logs[c.leader].commitIndex && l <= l'
            && (n > s.logs[c.leader].commitIndex ==>
                  && |Holders(mid.logs, l, n)| >= Majority(|end.logs.Keys|)
                  && Holders(mid.logs, l, n) <= Holders(end.logs, l', n)
                  && c.leader in Holders(mid.logs, l, n))
  {
    hide InEpoch, LeaderOk, NodesOk, LetterOk, AckOk, PeerOk, CallsOk, Holders;
    BothPoints(s, c, mid, end);
    var n := mid.logs[c.leader].commitIndex;
    StartCommit(s, c, mid, end);
    assert NodeLater(s.logs[c.leader], s.logs[c.leader].log, mid.logs[c.leader], mid.logs[c.leader].log);
    if n > s.logs[c.leader].commitIndex {
      HeldLater(mid.logs, mid.logs[c.leader].log, end.logs, end.logs[c.leader].log, n);
      LeaderHolds(mid, c);
    }
  }

  lemma StartCommit(s: System, c: Reign, mid: System, end: System)
    requires InEpoch(s, c, mid, end) && c.leader in s.logs
    ensures c.commit0 == s.logs[c.leader].commitIndex
  {
    hide Reaches;
  }

  lemma LeaderHolds(s: System, c: Reign)
    requires Inv(s, c) && c.leader in s.logs
    ensures c.leader in Holders(s.logs, LeaderLogIn(s, c), s.logs[c.leader].commitIndex)
  {
    hide LeaderOk, LetterOk, AckOk, PeerOk, CallsOk, CommitOk, Aligned;
    assert NodeOk(s.logs[c.leader], LeaderLogIn(s, c), c.term);
  }

  /** Acknowledgement soundness: although followers report the length of their whole log, an
      acknowledgement in flight and the leader's own match index always name a true common prefix. */
  lemma AcknowledgementsAreTrue(s: System, c: Reign, mid: System)
    requires InEpoch(s, c, mid, mid)
    ensures c.leader in mid.logs
    ensures forall k :: k in mid.acks && k.dst == c.leader && k.resp.success && k.resp.term == c.term ==>
              k.resp.followerID in mid.logs
              && k.resp.matchIndex + 1 <= Lcp(mid.logs[k.resp.followerID].log, mid.logs[c.leader].log)
    ensures forall p :: p in mid.logs[c.leader].peers ==>
              p in mid.logs && p in mid.logs[c.leader].matchIndex
              && mid.logs[c.leader].matchIndex[p] + 1 <= Lcp(mid.logs[p].log, mid.logs[c.leader].log)
  {
    hide InEpoch, LeaderOk, NodesOk, LetterOk, CallsOk, CommitOk, Later, Shares;
    BothPoints(s, c, mid, mid);
    var n := mid.logs[c.leader];
    forall k | k in mid.acks && k.dst == c.leader && k.resp.success && k.resp.term == c.term
      ensures k.resp.followerID in mid.logs && k.resp.matchIndex + 1 <= Lcp(mid.logs[k.resp.followerID].log, n.log)
    {
      assert AckOk(mid.logs, c, n.log, k);
      SharesIsLcp(mid.logs[k.resp.followerID].log, n.log, k.resp.matchIndex + 1);
    }
    forall p | p in n.peers
      ensures p in mid.logs && p in n.matchIndex && n.matchIndex[p] + 1 <= Lcp(mid.logs[p].log, n.log)
    {
      assert PeerOk(mid.logs, n, n.log, p);
      SharesIsLcp(mid.logs[p].log, n.log, n.matchIndex[p] + 1);
    }
  }

  /** What a node shares with the leader never shrinks, in whatever order old and new requests arrive, so
      no committed entry is ever truncated and no commit index goes back. */
  lemma CommonPrefixNeverShrinks(s: System, c: Reign, mid: System, end: System, i: nat)
    requires InEpoch(s, c, mid, end) && i in mid.logs
    ensures c.leader in mid.logs && c.leader in end.logs && i in end.logs
    ensures var n, n', l, l' := mid.logs[i], end.logs[i], mid.logs[c.leader].log, end.logs[c.leader].log;
            && Lcp(n.log, l) <= Lcp(n'.log, l')
            && n.commitIndex <= n'.commitIndex
            && Shares(n.log, n'.log, n.commitIndex + 1)
  {
    hide InEpoch, LeaderOk, LetterOk, AckOk, PeerOk, CallsOk, CommitOk, Aligned, Shares;
    BothPoints(s, c, mid, end);
    var n, n', l, l' := mid.logs[i], end.logs[i], mid.logs[c.leader].log, end.logs[c.leader].log;
    assert NodeLater(n, l, n', l') && NodeOk(n, l, c.term);
    SharesIsLcp(n.log, l, Lcp(n.log, l));
    SharesIsLcp(n'.log, l', Lcp(n.log, l));
    SamePrefix(n.log, l, n'.log, l', n.commitIndex + 1);
  }

  lemma SamePrefix(a: seq<LogEntry>, l: seq<LogEntry>, a': seq<LogEntry>, l': seq<LogEntry>, n: int)
    requires Shares(a, l, n) && Shares(a', l', n) && l <= l'
    ensures Shares(a, a', n)
  {
    assert l'[..|l|] == l;
    assert l'[..n] == l'[..|l|][..n];
  }

  /** A node's table is the fold of what any later log of the leader starts with. */
  lemma TableIsLeaders(s: System, c: Reign, i: nat, l': seq<LogEntry>)
    requires Inv(s, c) && c.leader in s.logs && i in s.logs && s.logs[c.leader].log <= l'
    ensures var n := s.logs[i]; 0 <= n.lastApplied + 1 <= |l'| && n.table == Fold(l'[..n.lastApplied + 1])
  {
    hide Aligned, Fold, LeaderOk, LetterOk, AckOk, PeerOk, CallsOk, CommitOk;
    var n, l := s.logs[i], s.logs[c.leader].log;
    assert NodeOk(n, l, c.term);
    var m := n.lastApplied + 1;
    assert n.log[..m] == n.log[..n.commitIndex + 1][..m];
    assert l[..m] == l[..n.commitIndex + 1][..m];
    assert l'[..|l|] == l;
    assert l'[..m] == l'[..|l|][..m];
  }

  /** State Machine Safety: every routing table, at every point of an epoch, is the fold of a prefix of
      one and the same log; nodes that have applied equally many entries, even at different times, have
      equal tables. */
  lemma StateMachineSafety(s: System, c: Reign, mid: System, end: System, i: nat, j: nat)
    requires InEpoch(s, c, mid, end) && i in mid.logs && j in end.logs
    ensures c.leader in end.logs
    ensures var l, a, b := end.logs[c.leader].log, mid.logs[i], end.logs[j];
            && 0 <= a.lastApplied + 1 <= |l| && a.table == Fold(l[..a.lastApplied + 1])
            && 0 <= b.lastApplied + 1 <= |l| && b.table == Fold(l[..b.lastApplied + 1])
            && (a.lastApplied == b.lastApplied ==> a.table == b.table)
  {
    hide InEpoch, Inv, Fold;
    BothPoints(s, c, mid, end);
    TableIsLeaders(mid, c, i, end.logs[c.leader].log);
    TableIsLeaders(end, c, j, end.logs[c.leader].log);
  }

  /** A ProposeEntry call of the epoch that returns true has its own entry in the leader's log, at or
      below the commit index, applied to the leader's table, and held by a majority. */
  lemma ProposeTrueMeansCommitted(s: System, c: Reign, mid: System, e: LogEntry)
    requires InEpoch(s, c, mid, mid)
    requires Receipt(c.leader, e) in mid.receipts && Receipt(c.leader, e) !in s.receipts
    ensures c.leader in mid.logs
    ensures var n := mid.logs[c.leader];
            && 0 <= e.index <= n.lastApplied <= n.commitIndex < |n.log| && n.log[e.index] == e
            && e.term == n.currentTerm
            && n.table == Fold(n.log[..n.lastApplied + 1])
            && |Holders(mid.logs, n.log, e.index)| >= Majority(|mid.logs.Keys|)
  {
    hide Reaches, LetterOk, AckOk, PeerOk, CommitOk, Aligned, Later, Holders, Fold, Starts;
    BothPoints(s, c, mid, mid);
    assert DoneOk(mid.logs, c, mid.logs[c.leader], e);
    assert NodeOk(mid.logs[c.leader], mid.logs[c.leader].log, c.term);
  }

  /** In an epoch the leader's downward commit scan is the order-statistic rule. */
  lemma ScanIsRuleInEpoch(s: System, c: Reign, mid: System)
    requires InEpoch(s, c, mid, mid)
    ensures c.leader in mid.logs
    ensures var n := mid.logs[c.leader];
            n.commitIndex >= -1 && TryAdvance(n) == n.(commitIndex := CommitScan.RuleCommit(n))
  {
    hide InEpoch, NodesOk, LetterOk, AckOk, PeerOk, CommitOk, CallsOk, Later;
    BothPoints(s, c, mid, mid);
    var n := mid.logs[c.leader];
    hide Inv;
    assert n.commitIndex >= -1 by { EpochNodeValid(mid, c); }
    CommitScan.ScanIsRule(n);
  }

  lemma EpochNodeValid(s: System, c: Reign)
    requires Inv(s, c)
    ensures c.leader in s.logs && Valid(s.logs[c.leader])
  {
    hide LetterOk, AckOk, PeerOk, CommitOk, CallsOk, LeaderOk;
    assert NodeOk(s.logs[c.leader], s.logs[c.leader].log, c.term);
  }

  /** In an epoch no request announces more than it carries, so a follower that accepts one and moves its
      commit index moves it where Figure 2 says. */
  lemma ClampIsFigure2InEpoch(s: System, c: Reign, mid: System, m: Outgoing)
    requires InEpoch(s, c, mid, mid) && m in mid.letters
    ensures m.dst in mid.logs && Valid(mid.logs[m.dst]) && m.req.prevLogIndex >= -1
    ensures var f := mid.logs[m.dst];
            F.Accepts(f, m.req) && m.req.leaderCommit > f.commitIndex ==>
              HandleAppendEntries(f, m.req).state.commitIndex == Min(m.req.leaderCommit, F.LastNew(m.req))
  {
    hide InEpoch, AckOk, PeerOk, CommitOk, CallsOk, LeaderOk, Later, Shares, F.Accepts;
    BothPoints(s, c, mid, mid);
    var l := mid.logs[c.leader].log;
    assert LetterOk(mid.logs.Keys, c, l, m);
    var f := mid.logs[m.dst];
    assert NodeOk(f, l, c.term);
    hide Inv;
    if F.Accepts(f, m.req) && m.req.leaderCommit > f.commitIndex {
      F.ClampIsFigure2Iff(f, m.req);
    }
  }
}
