/** One follower's log against the log of the epoch's leader: what a request of that leader does to
    the follower, whenever it arrives. */
module EpochLog {
  import opened Types
  import opened LogModel
  import opened LogFacts
  import F = Follower

  ghost predicate TermsAscend(log: seq<LogEntry>) {
    forall i, j :: 0 <= i <= j < |log| ==> log[i].term <= log[j].term
  }

  /** The leader of term t found a log of length `start` and has appended only entries of term t since. */
  ghost predicate LeaderLog(l: seq<LogEntry>, t: int, start: nat) {
    && start <= |l|
    && TermsAscend(l)
    && forall k :: 0 <= k < |l| ==> l[k].term <= t && (l[k].term == t <==> k >= start)
  }

  /** A log that matches the leader's, and whose entries of term t are the leader's. */
  ghost predicate Aligned(log: seq<LogEntry>, l: seq<LogEntry>, t: int) {
    && Match(log, l)
    && TermsAscend(log)
    && forall k :: 0 <= k < |log| ==> log[k].term <= t && (log[k].term == t ==> k < |l| && l[k].term == t)
  }

  /** A node whose committed prefix is the leader's and whose table is the fold of what it applied. */
  ghost predicate Applied(n: LogState, l: seq<LogEntry>) {
    && -1 <= n.lastApplied <= n.commitIndex
    && Shares(n.log, l, n.commitIndex + 1)
    && n.table == Fold(n.log[..n.lastApplied + 1])
  }

  ghost predicate NodeOk(n: LogState, l: seq<LogEntry>, t: int) {
    && Valid(n) && n.currentTerm <= t
    && Aligned(n.log, l, t)
    && Applied(n, l)
  }

  /** The entries found in a log from some position on. */
  ghost predicate Window(entries: seq<LogEntry>, l: seq<LogEntry>, from: int) {
    0 <= from && from + |entries| <= |l| && entries == l[from..from + |entries|]
  }

  /** A request carries a window of the leader's log that reaches into the leader's own term. */
  ghost predicate RequestOk(req: AppendRequest, l: seq<LogEntry>, t: int, start: nat) {
    var end := req.prevLogIndex + 1 + |req.entries|;
    && req.term == t && req.prevLogIndex >= -1
    && start < end && Window(req.entries, l, req.prevLogIndex + 1)
    && (req.prevLogIndex >= 0 ==> req.prevLogTerm == l[req.prevLogIndex].term)
    && req.leaderCommit < end
  }

  lemma RequestFacts(req: AppendRequest, l: seq<LogEntry>, t: int, start: nat)
    requires RequestOk(req, l, t, start)
    ensures req.term == t && -1 <= req.prevLogIndex < |l|
    ensures req.prevLogIndex >= 0 ==> req.prevLogTerm == l[req.prevLogIndex].term
  {
  }

  lemma MatchPrefix(a: seq<LogEntry>, l: seq<LogEntry>, m: nat)
    requires Match(a, l) && m <= |l|
    ensures Match(a, l[..m])
  {
    forall k | 0 <= k < |a| && k < m && a[k].term == l[..m][k].term ensures a[..k + 1] == l[..m][..k + 1] {
      assert l[..m][..k + 1] == l[..k + 1];
    }
  }

  lemma PrefixAligned(l: seq<LogEntry>, t: int, start: nat, m: nat)
    requires LeaderLog(l, t, start) && m <= |l|
    ensures Aligned(l[..m], l, t)
  {
    forall k | 0 <= k < m && l[..m][k].term == l[k].term ensures l[..m][..k + 1] == l[..k + 1] {}
  }

  lemma CutAligned(a: seq<LogEntry>, l: seq<LogEntry>, t: int, m: nat)
    requires Aligned(a, l, t) && m <= |a|
    ensures Aligned(a[..m], l, t)
  {
    forall k | 0 <= k < m && k < |l| && a[k].term == l[k].term ensures a[..m][..k + 1] == l[..k + 1] {
      assert a[..m][..k + 1] == a[..k + 1];
    }
  }

  /** An aligned log that holds the leader's entry just before `end`, one of the leader's own term, is a
      prefix of the leader's log, however long its tail: that tail came from this leader too. */
  lemma TailIsLeaders(a: seq<LogEntry>, l: seq<LogEntry>, t: int, end: nat)
    requires Aligned(a, l, t) && 1 <= end <= |l| && l[end - 1].term == t
    requires Shares(a, l, end)
    ensures a <= l
  {
    assert a[end - 1] == a[..end][end - 1] && l[end - 1] == l[..end][end - 1];
    var k := |a| - 1;
    assert a[end - 1].term <= a[k].term;
    assert a[..k + 1] == a;
  }

  /** Nothing shared with the leader is ever lost, not even on the rejecting path that truncates. */
  ghost predicate KeepsShared(a: seq<LogEntry>, a': seq<LogEntry>, l: seq<LogEntry>) {
    forall n :: Shares(a, l, n) ==> Shares(a', l, n)
  }

  /** The follower's new log, for each of the handler's outcomes. */
  lemma LogAfterOk(n: LogState, l: seq<LogEntry>, t: int, start: nat, req: AppendRequest)
    requires Aligned(n.log, l, t) && LeaderLog(l, t, start) && RequestOk(req, l, t, start) && n.currentTerm <= t
    ensures var a := F.LogAfter(n, req);
            && Aligned(a, l, t) && KeepsShared(n.log, a, l)
            && (F.Accepts(n, req) ==> a <= l)
  {
    RequestFacts(req, l, t, start);
    hide Aligned, LeaderLog, Merge, KeepsShared, RequestOk;
    if F.Accepts(n, req) {
      AcceptedLogOk(n.log, l, t, start, req);
    } else if req.prevLogIndex < |n.log| {
      CutAligned(n.log, l, t, req.prevLogIndex);
      CutKeepsShared(n.log, l, req.prevLogIndex);
    } else {
      assert KeepsShared(n.log, n.log, l) by { SelfKeeps(n.log, l); }
    }
  }

  lemma SelfKeeps(a: seq<LogEntry>, l: seq<LogEntry>)
    ensures KeepsShared(a, a, l)
  {
  }

  lemma SharedAt(a: seq<LogEntry>, l: seq<LogEntry>, n: nat, at: nat)
    requires Shares(a, l, n) && at < |a| && at < |l|
    ensures at < n ==> a[at] == l[at]
  {
    if at < n { assert a[at] == a[..n][at] && l[at] == l[..n][at]; }
  }

  lemma CutKeepsShared(a: seq<LogEntry>, l: seq<LogEntry>, at: nat)
    requires at < |a| && at < |l| && a[at].term != l[at].term
    ensures KeepsShared(a, a[..at], l)
  {
    forall n | Shares(a, l, n) ensures Shares(a[..at], l, n) {
      SharedAt(a, l, n, at);
      assert a[..at][..n] == a[..n];
    }
  }

  lemma AcceptedSharesBase(a: seq<LogEntry>, l: seq<LogEntry>, t: int, start: nat, req: AppendRequest)
    requires Match(a, l) && RequestOk(req, l, t, start) && HasPrevious(a, req)
    ensures Shares(a, l, req.prevLogIndex + 1)
  {
  }

  lemma SharedPrefix(a: seq<LogEntry>, l: seq<LogEntry>, n: nat, end: nat)
    requires Shares(a, l, n) && end <= |l|
    ensures end <= n ==> l[..end] <= a
  {
    if end <= n { assert l[..end] == l[..n][..end] && a[..end] == a[..n][..end]; }
  }

  lemma WindowKeepsShared(a: seq<LogEntry>, l: seq<LogEntry>, end: nat)
    requires end <= |l| && !(l[..end] <= a)
    ensures KeepsShared(a, l[..end], l)
  {
    forall n | Shares(a, l, n) ensures Shares(l[..end], l, n) {
      SharedPrefix(a, l, n, end);
      assert l[..end][..n] == l[..n];
    }
  }

  lemma AcceptedLogOk(a: seq<LogEntry>, l: seq<LogEntry>, t: int, start: nat, req: AppendRequest)
    requires Aligned(a, l, t) && LeaderLog(l, t, start) && RequestOk(req, l, t, start)
    requires HasPrevious(a, req)
    ensures var r := Merge(a, req.prevLogIndex + 1, req.entries);
            Aligned(r, l, t) && KeepsShared(a, r, l) && r <= l
  {
    var at := req.prevLogIndex + 1;
    var end := at + |req.entries|;
    assert l[end - 1].term == t;
    assert Match(a, l);
    AcceptedSharesBase(a, l, t, start, req);
    hide Aligned, LeaderLog, Merge, KeepsShared, Match, HasPrevious;
    var sent := l[..end];
    MatchPrefix(a, l, end);
    assert sent[..at] == l[..at];
    assert sent[at..] == req.entries;
    MergeTail(a, sent, at);
    if sent <= a {
      TailIsLeaders(a, l, t, end);
      SelfKeeps(a, l);
    } else {
      PrefixAligned(l, t, start, end);
      WindowKeepsShared(a, l, end);
    }
  }

  lemma FollowerMoves(n: LogState, l: seq<LogEntry>, t: int, start: nat, req: AppendRequest)
    requires NodeOk(n, l, t) && LeaderLog(l, t, start) && RequestOk(req, l, t, start)
    ensures var a := F.LogAfter(n, req);
            && Aligned(a, l, t) && KeepsShared(n.log, a, l) && Applied(n.(currentTerm := t, log := a), l)
            && (F.Accepts(n, req) ==> a <= l)
  {
    RequestFacts(req, l, t, start);
    hide Aligned, LeaderLog, KeepsShared, F.LogAfter, F.Accepts, Applied, RequestOk, HasPrevious;
    LogAfterOk(n, l, t, start, req);
    AppliedStays(n, l, F.LogAfter(n, req));
    TermIsNotApplied(n.(log := F.LogAfter(n, req)), l, t);
  }

  lemma TermIsNotApplied(n: LogState, l: seq<LogEntry>, t: int)
    ensures Applied(n, l) <==> Applied(n.(currentTerm := t), l)
  {
  }

  /** Everything one request does to one follower, in an epoch. */
  lemma FollowerStep(n: LogState, l: seq<LogEntry>, t: int, start: nat, req: AppendRequest)
    requires NodeOk(n, l, t) && LeaderLog(l, t, start) && RequestOk(req, l, t, start)
    ensures var r := HandleAppendEntries(n, req);
            && NodeOk(r.state, l, t)
            && KeepsShared(n.log, r.state.log, l)
            && r.state.commitIndex >= n.commitIndex && r.state.lastApplied >= n.lastApplied
            && r.resp.term == t && r.resp.matchIndex >= -1
            && (r.resp.success ==> r.resp.matchIndex == |r.state.log| - 1 && r.state.log <= l)
  {
    hide Aligned, LeaderLog, KeepsShared, F.LogAfter, F.Accepts, Applied, RequestOk;
    hide HandleAppendEntries, HasPrevious, FollowCommit;
    RequestFacts(req, l, t, start);
    FollowerMoves(n, l, t, start, req);
    F.HandleShape(n, req);
    if F.Accepts(n, req) {
      AcceptedState(n, req);
      CommitStays(n.(currentTerm := t, log := F.LogAfter(n, req)), l, req.leaderCommit);
    } else {
      RejectedState(n, req);
    }
  }

  lemma AcceptedState(n: LogState, req: AppendRequest)
    requires Valid(n) && req.prevLogIndex >= -1 && F.Accepts(n, req)
    ensures HandleAppendEntries(n, req).state ==
            FollowCommit(n.(currentTerm := req.term, log := F.LogAfter(n, req)), req.leaderCommit)
  {
  }

  lemma RejectedState(n: LogState, req: AppendRequest)
    requires Valid(n) && req.prevLogIndex >= -1 && !F.Accepts(n, req) && req.term >= n.currentTerm
    ensures HandleAppendEntries(n, req).state == n.(currentTerm := req.term, log := F.LogAfter(n, req))
  {
  }

  lemma AppliedStays(n: LogState, l: seq<LogEntry>, a: seq<LogEntry>)
    requires Applied(n, l) && KeepsShared(n.log, a, l)
    ensures Applied(n.(log := a), l)
  {
    assert Shares(a, l, n.commitIndex + 1);
    assert a[..n.lastApplied + 1] == a[..n.commitIndex + 1][..n.lastApplied + 1];
    assert n.log[..n.lastApplied + 1] == n.log[..n.commitIndex + 1][..n.lastApplied + 1];
  }

  lemma CommitStays(n: LogState, l: seq<LogEntry>, lc: int)
    requires Valid(n) && Applied(n, l) && n.log <= l
    ensures var n' := FollowCommit(n, lc);
            && Applied(n', l)
            && n'.commitIndex >= n.commitIndex && n'.lastApplied >= n.lastApplied
  {
    hide ApplyCommitted, Fold;
    FollowCommitState(n, lc);
    PrefixShares(n.log, l);
    if lc > n.commitIndex {
      var n1 := n.(commitIndex := Min(lc, |n.log| - 1));
      if n1.commitIndex > n.commitIndex {
        ApplyCommittedFolds(n1);
      }
    }
  }
}
