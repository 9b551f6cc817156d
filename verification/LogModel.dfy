/** One node's replicated log as a value, and each critical section of the
    Raft log module as a function on that value. */
module LogModel {
  import opened Types
  import opened Quorum
  import opened Ordering

  datatype LogState = LogState(
    id: nat,
    peers: seq<nat>,
    isLeader: bool,
    currentTerm: int,
    log: seq<LogEntry>,
    commitIndex: int,
    lastApplied: int,
    nextIndex: map<nat, int>,
    matchIndex: map<nat, int>,
    table: RoutingTable)

  /** A Go map of integers yields 0 for a missing key. */
  function Lookup(m: map<nat, int>, k: nat): int {
    if k in m then m[k] else 0
  }

  function NewLog(id: nat, peers: seq<nat>): LogState {
    LogState(id, peers, false, 0, [], -1, -1, map[], map[], EMPTY_TABLE)
  }

  /** What every handler relies on and keeps: no index ever falls below its initial value. */
  ghost predicate Valid(s: LogState) {
    && s.commitIndex >= -1
    && s.lastApplied >= -1
    && forall p :: p in s.nextIndex ==> s.nextIndex[p] >= 0
  }

  // ---------- leader side ----------

  /** Set every peer's entry, one peer at a time. */
  function Reset(m: map<nat, int>, peers: seq<nat>, value: int): map<nat, int>
    decreases |peers|
  {
    if peers == [] then m else Reset(m[peers[0] := value], peers[1..], value)
  }

  lemma {:induction false} ResetAt(m: map<nat, int>, peers: seq<nat>, value: int, p: nat)
    ensures p in peers ==> p in Reset(m, peers, value) && Reset(m, peers, value)[p] == value
    ensures p !in peers ==> (p in Reset(m, peers, value) <==> p in m)
    ensures p !in peers && p in m ==> Reset(m, peers, value)[p] == m[p]
    decreases |peers|
  {
    if peers != [] {
      assert p in peers <==> p == peers[0] || p in peers[1..];
      ResetAt(m[peers[0] := value], peers[1..], value, p);
    }
  }

  function BecomeLeader(s: LogState, term: int): LogState {
    s.(isLeader := true,
       currentTerm := term,
       nextIndex := Reset(s.nextIndex, s.peers, |s.log|),
       matchIndex := Reset(s.matchIndex, s.peers, -1))
  }

  lemma BecomeLeaderKeepsValid(s: LogState, term: int)
    requires Valid(s)
    ensures Valid(BecomeLeader(s, term))
  {
    forall p | p in Reset(s.nextIndex, s.peers, |s.log|)
      ensures Reset(s.nextIndex, s.peers, |s.log|)[p] >= 0
    {
      ResetAt(s.nextIndex, s.peers, |s.log|, p);
    }
  }

  function BecomeFollower(s: LogState, term: int): LogState {
    s.(isLeader := false, currentTerm := term)
  }

  function NewEntry(s: LogState, change: ChangeType, key: string, value: string): LogEntry {
    LogEntry(s.currentTerm, |s.log|, change, key, value)
  }

  /** The first critical section of ProposeEntry, once `isLeader` has been checked. */
  function Append(s: LogState, entry: LogEntry): LogState {
    s.(log := s.log + [entry])
  }

  function BuildRequest(s: LogState, follower: nat): (req: AppendRequest)
    requires Valid(s)
    ensures req.prevLogIndex >= -1
  {
    var next := Lookup(s.nextIndex, follower);
    var prev := next - 1;
    AppendRequest(s.currentTerm, s.id, prev,
                  if 0 <= prev < |s.log| then s.log[prev].term else -1,
                  if next < |s.log| then s.log[next..] else [],
                  s.commitIndex)
  }

  function MatchList(peers: seq<nat>, matchIndex: map<nat, int>): (r: seq<int>)
    ensures |r| == |peers|
    ensures forall i :: 0 <= i < |peers| ==> r[i] == Lookup(matchIndex, peers[i])
  {
    seq(|peers|, i requires 0 <= i < |peers| => Lookup(matchIndex, peers[i]))
  }

  /** The leader itself plus every peer recorded as holding index n. */
  function Replicas(s: LogState, n: int): nat {
    1 + CountAtLeast(MatchList(s.peers, s.matchIndex), n)
  }

  function Committable(s: LogState, n: int): bool
    requires 0 <= n < |s.log|
  {
    s.log[n].term == s.currentTerm && Replicas(s, n) >= Majority(|s.peers| + 1)
  }

  /** The downward scan: the first committable index at or below n, else the old commit index. */
  function ScanCommit(s: LogState, n: int): int
    requires s.commitIndex >= -1 && n < |s.log|
    decreases n - s.commitIndex
  {
    if n <= s.commitIndex then s.commitIndex
    else if Committable(s, n) then n
    else ScanCommit(s, n - 1)
  }

  function TryAdvance(s: LogState): LogState
    requires s.commitIndex >= -1
  {
    s.(commitIndex := ScanCommit(s, |s.log| - 1))
  }

  datatype Response = Response(state: LogState, retry: Option<AppendRequest>)

  function HandleResponse(s: LogState, resp: AppendResponse): Response
    requires Valid(s) && resp.matchIndex >= -1
  {
    var f := resp.followerID;
    if resp.term > s.currentTerm then
      Response(s.(isLeader := false, currentTerm := resp.term), None)
    else if resp.success then
      Response(TryAdvance(s.(matchIndex := s.matchIndex[f := resp.matchIndex],
                             nextIndex := s.nextIndex[f := resp.matchIndex + 1])), None)
    else
      var s' := if Lookup(s.nextIndex, f) > 0
                then s.(nextIndex := s.nextIndex[f := Lookup(s.nextIndex, f) - 1])
                else s;
      Response(s', Some(BuildRequest(s', f)))
  }

  // ---------- state machine ----------

  function ApplyEntry(t: RoutingTable, e: LogEntry): RoutingTable {
    match e.change
    case AddRoom => t.(rooms := t.rooms[e.key := RoutingEntry(e.key, e.value)])
    case AddServer => t.(servers := t.servers[e.key := e.value])
    case OtherChange(_) => t
  }

  /** The routing table after a sequence of entries, starting from the empty one. */
  function Fold(entries: seq<LogEntry>): RoutingTable {
    if entries == [] then EMPTY_TABLE
    else ApplyEntry(Fold(entries[..|entries| - 1]), entries[|entries| - 1])
  }

  /** `applyCommitted` indexes the log up to `commitIndex`, so that index must exist if it is reached. */
  ghost predicate CanApply(s: LogState) {
    s.lastApplied >= -1 && (s.lastApplied < s.commitIndex ==> s.commitIndex < |s.log|)
  }

  function ApplyCommitted(s: LogState): LogState
    requires CanApply(s)
    decreases s.commitIndex - s.lastApplied
  {
    if s.lastApplied < s.commitIndex then
      var next := s.lastApplied + 1;
      ApplyCommitted(s.(lastApplied := next, table := ApplyEntry(s.table, s.log[next])))
    else s
  }

  /** Applying touches only `lastApplied` and the table, and keeps the table the fold of what was applied. */
  lemma {:induction false} ApplyCommittedFolds(s: LogState)
    requires CanApply(s)
    ensures var s' := ApplyCommitted(s);
            s' == s.(lastApplied := s'.lastApplied, table := s'.table)
    ensures ApplyCommitted(s).lastApplied == if s.lastApplied < s.commitIndex then s.commitIndex else s.lastApplied
    ensures s.lastApplied < |s.log| && s.table == Fold(s.log[..s.lastApplied + 1]) ==>
              ApplyCommitted(s).table == Fold(s.log[..ApplyCommitted(s).lastApplied + 1])
    decreases s.commitIndex - s.lastApplied
  {
    if s.lastApplied < s.commitIndex {
      var next := s.lastApplied + 1;
      assert s.log[..next + 1][..next] == s.log[..next];
      ApplyCommittedFolds(s.(lastApplied := next, table := ApplyEntry(s.table, s.log[next])));
    }
  }

  // ---------- follower side ----------

  /** Skip entries already present with the same term; at the first conflict, or past the end,
      cut there and append the rest. */
  function Merge(log: seq<LogEntry>, at: nat, entries: seq<LogEntry>): seq<LogEntry>
    requires at <= |log|
    decreases |entries|
  {
    if entries == [] then log
    else if at == |log| then log + entries
    else if log[at].term != entries[0].term then log[..at] + entries
    else Merge(log, at + 1, entries[1..])
  }

  function Min(a: int, b: int): int {
    if a < b then a else b
  }

  function FollowCommit(s: LogState, leaderCommit: int): LogState
    requires Valid(s)
  {
    if leaderCommit > s.commitIndex then
      var s' := s.(commitIndex := Min(leaderCommit, |s.log| - 1));
      if s'.commitIndex > s.commitIndex then ApplyCommitted(s') else s'
    else s
  }

  datatype Reply = Reply(state: LogState, resp: AppendResponse)

  function Answer(s: LogState, success: bool, matchIndex: int): Reply {
    Reply(s, AppendResponse(s.currentTerm, success, s.id, matchIndex))
  }

  /** Does the log hold the entry the request builds on? */
  predicate HasPrevious(log: seq<LogEntry>, req: AppendRequest)
    requires req.prevLogIndex >= -1
  {
    req.prevLogIndex == -1 ||
    (req.prevLogIndex < |log| && log[req.prevLogIndex].term == req.prevLogTerm)
  }

  function HandleAppendEntries(s: LogState, req: AppendRequest): Reply
    requires Valid(s) && req.prevLogIndex >= -1
  {
    if req.term < s.currentTerm then Answer(s, false, -1)
    else
      var s1 := s.(currentTerm := req.term);
      if HasPrevious(s.log, req) then
        var s2 := s1.(log := Merge(s.log, req.prevLogIndex + 1, req.entries));
        Answer(FollowCommit(s2, req.leaderCommit), true, |s2.log| - 1)
      else if req.prevLogIndex < |s.log| then
        Answer(s1.(log := s.log[..req.prevLogIndex]), false, req.prevLogIndex - 1)
      else
        Answer(s1, false, |s.log| - 1)
  }

  /** What following the leader's commit index does to each field. */
  lemma FollowCommitState(s: LogState, lc: int)
    requires Valid(s)
    ensures var s' := FollowCommit(s, lc);
            && s' == s.(commitIndex := s'.commitIndex, lastApplied := s'.lastApplied, table := s'.table)
            && s'.commitIndex == (if lc > s.commitIndex then Min(lc, |s.log| - 1) else s.commitIndex)
            && s'.lastApplied == (if s'.commitIndex > s.commitIndex && s'.commitIndex > s.lastApplied
                                  then s'.commitIndex else s.lastApplied)
            && Valid(s')
  {
    if lc > s.commitIndex {
      var s1 := s.(commitIndex := Min(lc, |s.log| - 1));
      if s1.commitIndex > s.commitIndex {
        ApplyCommittedFolds(s1);
      }
    }
  }

  lemma HandleKeepsValid(s: LogState, req: AppendRequest)
    requires Valid(s) && req.prevLogIndex >= -1
    ensures var r := HandleAppendEntries(s, req);
            && Valid(r.state) && r.resp.matchIndex >= -1
            && r.state.id == s.id && r.resp.followerID == s.id && r.state.peers == s.peers
  {
    FollowCommitState(s.(currentTerm := req.term), req.leaderCommit);
    if HasPrevious(s.log, req) {
      var merged := Merge(s.log, req.prevLogIndex + 1, req.entries);
      FollowCommitState(s.(currentTerm := req.term, log := merged), req.leaderCommit);
    }
  }

  /** Handling a response keeps a node valid, and its commit index inside its log. */
  lemma HandleResponseKeeps(s: LogState, resp: AppendResponse)
    requires Valid(s) && resp.matchIndex >= -1
    ensures var s' := HandleResponse(s, resp).state;
            && Valid(s') && s'.log == s.log && s'.lastApplied == s.lastApplied && s'.table == s.table
            && s'.id == s.id && s'.peers == s.peers
            && s'.commitIndex >= s.commitIndex
            && (s.commitIndex < |s.log| ==> s'.commitIndex < |s.log|)
            && (CanApply(s) ==> CanApply(s'))
  {
    if resp.term <= s.currentTerm && resp.success {
      var s1 := s.(matchIndex := s.matchIndex[resp.followerID := resp.matchIndex],
                   nextIndex := s.nextIndex[resp.followerID := resp.matchIndex + 1]);
      ScanCommitFound(s1, |s.log| - 1);
    }
  }

  /** The scan either leaves the commit index alone or stops at a committable index above it. */
  lemma {:induction false} ScanCommitFound(s: LogState, n: int)
    requires s.commitIndex >= -1 && n < |s.log|
    ensures var c := ScanCommit(s, n);
            c == s.commitIndex || (s.commitIndex < c <= n && Committable(s, c))
    decreases n - s.commitIndex
  {
    if n > s.commitIndex && !Committable(s, n) {
      ScanCommitFound(s, n - 1);
    }
  }

  /** If one response moves the commit index, it moves it to a committable entry. */
  lemma AdvanceIsCounted(s: LogState, resp: AppendResponse)
    requires Valid(s) && resp.matchIndex >= -1
    ensures var s' := HandleResponse(s, resp).state;
            s'.commitIndex > s.commitIndex ==> 0 <= s'.commitIndex < |s'.log| && Committable(s', s'.commitIndex)
  {
    if resp.term <= s.currentTerm && resp.success {
      ScanCommitFound(s.(matchIndex := s.matchIndex[resp.followerID := resp.matchIndex],
                         nextIndex := s.nextIndex[resp.followerID := resp.matchIndex + 1]), |s.log| - 1);
    }
  }
}
