/** Properties of the follower's AppendEntries handler, and of the whole exchange between a leader
    and one follower. */
module Follower {
  import opened Types
  import opened LogModel
  import opened LogFacts

  /** The follower's log after a request, outcome by outcome. */
  function LogAfter(s: LogState, req: AppendRequest): seq<LogEntry>
    requires req.prevLogIndex >= -1
  {
    if req.term < s.currentTerm then s.log
    else if HasPrevious(s.log, req) then Merge(s.log, req.prevLogIndex + 1, req.entries)
    else if req.prevLogIndex < |s.log| then s.log[..req.prevLogIndex]
    else s.log
  }

  lemma HandleShape(s: LogState, req: AppendRequest)
    requires Valid(s) && req.prevLogIndex >= -1
    ensures var r := HandleAppendEntries(s, req);
            && r.state.log == LogAfter(s, req)
            && (r.resp.success <==> Accepts(s, req))
            && r.resp.followerID == s.id == r.state.id
            && r.resp.term == r.state.currentTerm == (if req.term < s.currentTerm then s.currentTerm else req.term)
            && (req.term >= s.currentTerm ==> r.resp.matchIndex == |r.state.log| - 1)
            && (req.term < s.currentTerm ==> r.state == s && r.resp.matchIndex == -1)
            && r.state.isLeader == s.isLeader && r.state.peers == s.peers
            && r.state.nextIndex == s.nextIndex && r.state.matchIndex == s.matchIndex
            && Valid(r.state) && r.resp.matchIndex >= -1
            && (!Accepts(s, req) ==> r.state.commitIndex == s.commitIndex && r.state.lastApplied == s.lastApplied
                                     && r.state.table == s.table)
  {
    HandleKeepsValid(s, req);
    if Accepts(s, req) {
      FollowCommitState(s.(currentTerm := req.term, log := LogAfter(s, req)), req.leaderCommit);
    }
  }

  predicate Accepts(s: LogState, req: AppendRequest)
    requires req.prevLogIndex >= -1
  {
    req.term >= s.currentTerm && HasPrevious(s.log, req)
  }

  // ---------- redelivery ----------

  lemma {:induction false} MergeTwice(log: seq<LogEntry>, at: nat, entries: seq<LogEntry>)
    requires at <= |log|
    ensures var r := Merge(log, at, entries);
            at <= |r| && r[..at] == log[..at] && Merge(r, at, entries) == r && at + |entries| <= |r|
    decreases |entries|
  {
    if entries != [] {
      if at == |log| || log[at].term != entries[0].term {
        var r := log[..at] + entries;
        assert log[..at] == log || at < |log|;
        MergeSame(r, at, entries);
      } else {
        MergeTwice(log, at + 1, entries[1..]);
        var r := Merge(log, at, entries);
        assert r[..at] == r[..at + 1][..at] && log[..at] == log[..at + 1][..at];
        assert r[at] == r[..at + 1][at] && log[at] == log[..at + 1][at];
      }
    }
  }

  lemma {:induction false} MergeSame(r: seq<LogEntry>, at: nat, entries: seq<LogEntry>)
    requires at <= |r| && r[at..] == entries
    ensures Merge(r, at, entries) == r
    decreases |entries|
  {
    if entries != [] {
      assert r[at + 1..] == entries[1..];
      assert r[at] == entries[0];
      MergeSame(r, at + 1, entries[1..]);
    }
  }

  lemma FollowCommitTwice(s: LogState, lc: int)
    requires Valid(s)
    ensures Valid(FollowCommit(s, lc)) && FollowCommit(FollowCommit(s, lc), lc) == FollowCommit(s, lc)
  {
    FollowCommitState(s, lc);
    FollowCommitState(FollowCommit(s, lc), lc);
  }

  lemma PreviousSurvives(log: seq<LogEntry>, req: AppendRequest)
    requires req.prevLogIndex >= -1 && HasPrevious(log, req)
    ensures var merged := Merge(log, req.prevLogIndex + 1, req.entries);
            HasPrevious(merged, req) && Merge(merged, req.prevLogIndex + 1, req.entries) == merged
  {
    MergeTwice(log, req.prevLogIndex + 1, req.entries);
    var merged := Merge(log, req.prevLogIndex + 1, req.entries);
    if req.prevLogIndex >= 0 {
      assert merged[..req.prevLogIndex + 1][req.prevLogIndex] == log[..req.prevLogIndex + 1][req.prevLogIndex];
    }
  }

  /** Handling the same request twice in a row is the same as handling it once, state and reply,
      in every valid state and on every outcome. */
  lemma RedeliveryHarmless(s: LogState, req: AppendRequest)
    requires Valid(s) && req.prevLogIndex >= -1
    ensures var once := HandleAppendEntries(s, req);
            Valid(once.state) && HandleAppendEntries(once.state, req) == once
  {
    HandleShape(s, req);
    if Accepts(s, req) {
      PreviousSurvives(s.log, req);
      var s2 := s.(currentTerm := req.term, log := LogAfter(s, req));
      var once := FollowCommit(s2, req.leaderCommit);
      FollowCommitState(s2, req.leaderCommit);
      FollowCommitTwice(s2, req.leaderCommit);
      assert once.(currentTerm := req.term, log := LogAfter(once, req)) == once;
    }
  }

  // ---------- the commit clamp ----------

  /** Index of the last new entry, as Figure 2 of the Raft paper means it. */
  function LastNew(req: AppendRequest): int {
    req.prevLogIndex + |req.entries|
  }

  /** Requests built from a commit index inside the log never announce more than they carry. */
  lemma BuiltRequestCovers(s: LogState, follower: nat)
    requires Valid(s) && s.commitIndex < |s.log|
    ensures BuildRequest(s, follower).leaderCommit <= LastNew(BuildRequest(s, follower))
  {
  }

  /** Some entry carried for position `at` on meets another term already in the log. */
  predicate Conflicts(log: seq<LogEntry>, at: nat, entries: seq<LogEntry>) {
    exists k :: 0 <= k < |entries| && at + k < |log| && log[at + k].term != entries[k].term
  }

  lemma ConflictsLater(log: seq<LogEntry>, at: nat, entries: seq<LogEntry>)
    requires entries != [] && at < |log| && log[at].term == entries[0].term
    ensures Conflicts(log, at, entries) <==> Conflicts(log, at + 1, entries[1..])
  {
    if Conflicts(log, at, entries) {
      var k :| 0 <= k < |entries| && at + k < |log| && log[at + k].term != entries[k].term;
      assert entries[1..][k - 1] == entries[k] && at + 1 + (k - 1) == at + k;
    }
    if Conflicts(log, at + 1, entries[1..]) {
      var k :| 0 <= k < |entries[1..]| && at + 1 + k < |log| && log[at + 1 + k].term != entries[1..][k].term;
      assert entries[k + 1] == entries[1..][k] && at + (k + 1) == at + 1 + k;
    }
  }

  /** The merged log ends with the last new entry, unless the old log reaches further and nothing conflicts. */
  lemma {:induction false} MergeLength(log: seq<LogEntry>, at: nat, entries: seq<LogEntry>)
    requires at <= |log|
    ensures |Merge(log, at, entries)| ==
            if Conflicts(log, at, entries) || at + |entries| >= |log| then at + |entries| else |log|
    decreases |entries|
  {
    if entries != [] && at < |log| {
      if log[at].term != entries[0].term {
        assert log[at + 0].term != entries[0].term;
      } else {
        ConflictsLater(log, at, entries);
        MergeLength(log, at + 1, entries[1..]);
      }
    }
  }

  /** The commit index after an accepted request that announces a higher one. */
  lemma CommitAfter(s: LogState, req: AppendRequest)
    requires Valid(s) && req.prevLogIndex >= -1 && Accepts(s, req) && req.leaderCommit > s.commitIndex
    ensures var end := if Conflicts(s.log, req.prevLogIndex + 1, req.entries) || LastNew(req) >= |s.log| - 1
                       then LastNew(req) else |s.log| - 1;
            HandleAppendEntries(s, req).state.commitIndex == Min(req.leaderCommit, end)
  {
    MergeLength(s.log, req.prevLogIndex + 1, req.entries);
    FollowCommitState(s.(currentTerm := req.term, log := LogAfter(s, req)), req.leaderCommit);
  }

  /** The code clamps the new commit index to the end of the follower's log, Figure 2 to the last new
      entry; the two agree exactly when the request covers its commit index, or the follower's log does not
      reach past the last new entry, or some carried entry conflicts with it. */
  lemma ClampIsFigure2Iff(s: LogState, req: AppendRequest)
    requires Valid(s) && req.prevLogIndex >= -1 && Accepts(s, req) && req.leaderCommit > s.commitIndex
    ensures HandleAppendEntries(s, req).state.commitIndex == Min(req.leaderCommit, LastNew(req)) <==>
            || req.leaderCommit <= LastNew(req)
            || |s.log| - 1 <= LastNew(req)
            || Conflicts(s.log, req.prevLogIndex + 1, req.entries)
  {
    CommitAfter(s, req);
  }

  /** A follower's commit index moves backwards exactly when an accepted request announces a higher one,
      ends below the current one, and the log either ends below it too or is cut by a conflict. */
  lemma CommitDecreasesIff(s: LogState, req: AppendRequest)
    requires Valid(s) && req.prevLogIndex >= -1
    ensures HandleAppendEntries(s, req).state.commitIndex < s.commitIndex <==>
            && Accepts(s, req)
            && LastNew(req) < s.commitIndex < req.leaderCommit
            && (s.commitIndex >= |s.log| || Conflicts(s.log, req.prevLogIndex + 1, req.entries))
  {
    if Accepts(s, req) {
      if req.leaderCommit > s.commitIndex {
        CommitAfter(s, req);
      } else {
        FollowCommitState(s.(currentTerm := req.term, log := LogAfter(s, req)), req.leaderCommit);
      }
    } else {
      HandleShape(s, req);
    }
  }

  /** A node of which nothing is recorded is sent the whole log. */
  lemma UnknownGetsAll(s: LogState, p: nat)
    requires Valid(s) && p !in s.nextIndex
    ensures var req := BuildRequest(s, p);
            req.prevLogIndex == -1 && req.prevLogTerm == -1 && req.entries == s.log && req.leaderCommit == s.commitIndex
  {
  }

  /** A sender whose commit index lies inside its log never lowers anyone's. */
  lemma SoundSenderNeverLowers(l: LogState, f: LogState)
    requires Valid(l) && Valid(f) && l.commitIndex < |l.log|
    ensures HandleAppendEntries(f, BuildRequest(l, f.id)).state.commitIndex >= f.commitIndex
  {
    BuiltRequestCovers(l, f.id);
    CommitDecreasesIff(f, BuildRequest(l, f.id));
  }

  ghost predicate Lowers(l: LogState, f: LogState)
    requires Valid(l) && Valid(f)
  {
    HandleAppendEntries(f, BuildRequest(l, f.id)).state.commitIndex < f.commitIndex
  }

  /** What a sender announces can lower some follower's commit index exactly when it exceeds the last entry
      of the request by two or more; such a sender's commit index lies beyond its log. */
  lemma SenderLowersIff(l: LogState, to: nat)
    requires Valid(l)
    ensures (exists f: LogState :: f.id == to && Valid(f) && Lowers(l, f)) <==>
            l.commitIndex > LastNew(BuildRequest(l, to)) + 1
    ensures l.commitIndex > LastNew(BuildRequest(l, to)) + 1 ==> l.commitIndex > |l.log|
  {
    var req := BuildRequest(l, to);
    forall f: LogState | f.id == to && Valid(f) && Lowers(l, f) ensures l.commitIndex > LastNew(req) + 1 {
      CommitDecreasesIff(f, req);
    }
    if l.commitIndex > LastNew(req) + 1 {
      var e := LogEntry(req.prevLogTerm, 0, AddRoom, "", "");
      var log := seq(req.prevLogIndex + 1, k => e);
      var f := NewLog(to, []).(currentTerm := l.currentTerm, log := log, commitIndex := LastNew(req) + 1,
                               lastApplied := LastNew(req) + 1);
      assert Accepts(f, req);
      CommitDecreasesIff(f, req);
      assert f.id == to && Valid(f) && Lowers(l, f);
    }
  }

  // ---------- backtracking ----------

  datatype Session = Session(leader: LogState, follower: LogState, rejections: nat)

  /** Leader and follower talk with every reply answered in turn, until the follower accepts or the
      leader is told of a higher term. */
  function Synchronise(l: LogState, f: LogState): Session
    requires Valid(l) && Valid(f)
    decreases Lookup(l.nextIndex, f.id)
  {
    var rep := HandleAppendEntries(f, BuildRequest(l, f.id));
    HandleKeepsValid(f, BuildRequest(l, f.id));
    var res := HandleResponse(l, rep.resp);
    if rep.resp.success || rep.resp.term > l.currentTerm then Session(res.state, rep.state, 0)
    else
      var rest := Synchronise(res.state, rep.state);
      rest.(rejections := rest.rejections + 1)
  }

  ghost predicate TermsNonNegative(log: seq<LogEntry>) {
    forall k :: 0 <= k < |log| ==> log[k].term >= 0
  }

  /** What a rejection at the index before `next` leaves of the follower's log. */
  function Rejected(f: seq<LogEntry>, next: nat): seq<LogEntry> {
    if 1 <= next <= |f| then f[..next - 1] else f
  }

  /** The previous-entry test, between logs that match: it passes exactly within the common prefix. */
  lemma PreviousTest(f: seq<LogEntry>, l: LogState, to: nat)
    requires Valid(l) && Match(f, l.log) && TermsNonNegative(f)
    ensures var next := Lookup(l.nextIndex, to);
            HasPrevious(f, BuildRequest(l, to)) <==> Shares(f, l.log, next)
  {
    var prev := BuildRequest(l, to).prevLogIndex;
    if 0 <= prev < |f| && prev < |l.log| {
      MatchDecidesByTerm(f, l.log, prev);
    }
  }

  lemma RejectionKeepsPrefix(f: seq<LogEntry>, l: seq<LogEntry>, next: nat)
    requires !Shares(f, l, next)
    ensures Rejected(f, next) <= f && Lcp(Rejected(f, next), l) == Lcp(f, l)
  {
    SharesIsLcp(f, l, next);
    if 1 <= next <= |f| {
      CutBeyondPrefix(f, l, next - 1);
    }
  }

  /** A leader's request is accepted exactly when its next index is within the common prefix; otherwise
      whatever the follower cuts off lies beyond that prefix. */
  lemma OneExchange(l: LogState, f: LogState)
    requires Valid(l) && Valid(f) && f.currentTerm <= l.currentTerm
    requires Match(f.log, l.log) && TermsNonNegative(f.log)
    ensures var next := Lookup(l.nextIndex, f.id);
            var r := HandleAppendEntries(f, BuildRequest(l, f.id));
            && (r.resp.success <==> next <= Lcp(f.log, l.log))
            && r.resp.matchIndex == |r.state.log| - 1
            && r.state.currentTerm == l.currentTerm == r.resp.term
            && r.state.id == f.id == r.resp.followerID && Valid(r.state)
            && (r.resp.success ==> l.log <= r.state.log)
            && (!r.resp.success ==> r.state.log <= f.log && Lcp(r.state.log, l.log) == Lcp(f.log, l.log))
  {
    var next := Lookup(l.nextIndex, f.id);
    var req := BuildRequest(l, f.id);
    HandleShape(f, req);
    PreviousTest(f.log, l, f.id);
    SharesIsLcp(f.log, l.log, next);
    if HasPrevious(f.log, req) {
      MergeTail(f.log, l.log, next);
      assert req.entries == l.log[next..];
    } else {
      RejectionKeepsPrefix(f.log, l.log, next);
      assert LogAfter(f, req) == Rejected(f.log, next);
    }
  }

  lemma CutBeyondPrefix(f: seq<LogEntry>, l: seq<LogEntry>, at: nat)
    requires at <= |f| && Lcp(f, l) <= at
    ensures Lcp(f[..at], l) == Lcp(f, l)
  {
    var c := Lcp(f, l);
    assert f[..at][..c] == f[..c];
    SharesIsLcp(f[..at], l, c);
    if c < at {
      assert f[..at][c] == f[c];
      SharesIsLcp(f[..at], l, c + 1);
      assert !Shares(f[..at], l, c + 1) by {
        assert c < |l| ==> f[..at][..c + 1][c] != l[..c + 1][c];
      }
    }
  }

  lemma MatchAfterCut(f: seq<LogEntry>, l: seq<LogEntry>, r: seq<LogEntry>)
    requires Match(f, l) && r <= f
    ensures Match(r, l)
  {
    forall k | 0 <= k < |r| && k < |l| && r[k].term == l[k].term ensures r[..k + 1] == l[..k + 1] {
      assert r[k] == f[k] && r[..k + 1] == f[..k + 1];
    }
  }

  lemma ResponseShape(l: LogState, resp: AppendResponse)
    requires Valid(l) && resp.matchIndex >= -1 && resp.term <= l.currentTerm
    ensures var l' := HandleResponse(l, resp).state;
            && Valid(l') && l'.log == l.log && l'.currentTerm == l.currentTerm
            && (resp.success ==> l'.matchIndex == l.matchIndex[resp.followerID := resp.matchIndex])
            && (!resp.success ==> l'.matchIndex == l.matchIndex)
            && (!resp.success && Lookup(l.nextIndex, resp.followerID) > 0 ==>
                  Lookup(l'.nextIndex, resp.followerID) == Lookup(l.nextIndex, resp.followerID) - 1)
  {
    HandleResponseKeeps(l, resp);
  }

  /** Backtracking ends after exactly one rejection per index between the common prefix and the
      leader's first guess, and then the follower's log starts with the whole log of the leader. */
  lemma {:induction false} SynchroniseCounts(l: LogState, f: LogState)
    requires Valid(l) && Valid(f) && f.currentTerm <= l.currentTerm
    requires Match(f.log, l.log) && TermsNonNegative(f.log)
    ensures var next := Lookup(l.nextIndex, f.id);
            var common := Lcp(f.log, l.log);
            var end := Synchronise(l, f);
            && end.rejections == (if next > common then next - common else 0)
            && l.log <= end.follower.log
            && end.leader.log == l.log
            && end.leader.matchIndex == l.matchIndex[f.id := |end.follower.log| - 1]
    decreases Lookup(l.nextIndex, f.id)
  {
    hide HandleAppendEntries, HandleResponse, BuildRequest, Synchronise;
    var rep := HandleAppendEntries(f, BuildRequest(l, f.id));
    OneExchange(l, f);
    ResponseShape(l, rep.resp);
    SynchroniseStep(l, f);
    if !rep.resp.success {
      MatchAfterCut(f.log, l.log, rep.state.log);
      SynchroniseCounts(HandleResponse(l, rep.resp).state, rep.state);
    }
  }

  /** One unfolding of the conversation, when no higher term is involved. */
  lemma SynchroniseStep(l: LogState, f: LogState)
    requires Valid(l) && Valid(f)
    requires HandleAppendEntries(f, BuildRequest(l, f.id)).resp.term <= l.currentTerm
    ensures var rep := HandleAppendEntries(f, BuildRequest(l, f.id));
            && Valid(rep.state) && rep.resp.matchIndex >= -1
            && var l' := HandleResponse(l, rep.resp).state;
            && Valid(l')
            && if rep.resp.success then Synchronise(l, f) == Session(l', rep.state, 0)
               else var rest := Synchronise(l', rep.state);
                    Synchronise(l, f) == rest.(rejections := rest.rejections + 1)
  {
    hide HandleAppendEntries, HandleResponse, BuildRequest;
    HandleKeepsValid(f, BuildRequest(l, f.id));
    ResponseShape(l, HandleAppendEntries(f, BuildRequest(l, f.id)).resp);
  }

  // ---------- what a new leader does to committed entries ----------

  /** Votes ignore logs, so a new leader need not hold what was committed before. After it has appended
      one entry of its own and synchronised with a follower, that follower's committed prefix survives
      if and only if it was a prefix of the leader's log to begin with. */
  lemma CommittedPrefixSurvivesIff(l: LogState, f: LogState, e: LogEntry)
    requires Valid(l) && Valid(f) && f.currentTerm <= l.currentTerm
    requires Match(f.log, l.log) && TermsNonNegative(f.log)
    requires e.term == l.currentTerm && forall k :: 0 <= k < |f.log| ==> f.log[k].term < l.currentTerm
    requires f.commitIndex < |f.log|
    ensures var end := Synchronise(Append(l, e), f);
            Shares(end.follower.log, f.log, f.commitIndex + 1) <==> Shares(f.log, l.log, f.commitIndex + 1)
  {
    hide Synchronise, Shares, Match;
    var l1 := Append(l, e);
    MatchAfterAppend(f.log, l.log, e);
    SynchroniseCounts(l1, f);
    PrefixThenSame(f.log, l.log, e, Synchronise(l1, f).follower.log, f.commitIndex + 1);
  }

  lemma MatchAfterAppend(f: seq<LogEntry>, l: seq<LogEntry>, e: LogEntry)
    requires Match(f, l) && (|l| < |f| ==> f[|l|].term != e.term)
    ensures Match(f, l + [e])
  {
    forall k | 0 <= k < |f| && k < |l + [e]| && f[k].term == (l + [e])[k].term
      ensures f[..k + 1] == (l + [e])[..k + 1]
    {
      assert (l + [e])[..k + 1] == l[..k + 1];
    }
  }

  lemma PrefixThenSame(f: seq<LogEntry>, l: seq<LogEntry>, e: LogEntry, g: seq<LogEntry>, n: nat)
    requires l + [e] <= g && n <= |f| && (|l| < |f| ==> f[|l|] != e)
    ensures Shares(g, f, n) <==> Shares(f, l, n)
  {
    assert g[..|l|] == l && g[|l|] == e;
    if n <= |l| {
      assert g[..n] == l[..n];
    } else {
      assert n <= |g| ==> g[..n][|l|] != f[..n][|l|];
    }
  }
}
