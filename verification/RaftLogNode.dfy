/** The Raft log module as the object it is: every handler updates the fields in place and is
    tied to the function of LogModel that states the whole new state. */
module RaftLogNode {
  import opened Types
  import opened Quorum
  import opened Ordering
  import LogModel
  import opened Sections
  import opened Proposal

  class RaftLog {
    const nodeID: nat
    const peers: seq<nat>
    const stopCh: StopChannel
    var isLeader: bool
    var currentTerm: int
    var log: seq<LogEntry>
    var commitIndex: int
    var lastApplied: int
    var nextIndex: map<nat, int>
    var matchIndex: map<nat, int>
    var servers: map<string, string>
    var rooms: map<string, RoutingEntry>

    ghost function View(): LogModel.LogState
      reads this
    {
      LogModel.LogState(nodeID, peers, isLeader, currentTerm, log, commitIndex, lastApplied,
                        nextIndex, matchIndex, RoutingTable(servers, rooms))
    }

    ghost predicate Valid()
      reads this
    {
      LogModel.Valid(View())
    }

    constructor (nodeID: nat, peers: seq<nat>)
      ensures View() == LogModel.NewLog(nodeID, peers) && Valid()
      ensures fresh(stopCh) && !stopCh.closed
    {
      this.nodeID, this.peers := nodeID, peers;
      isLeader, currentTerm, log := false, 0, [];
      commitIndex, lastApplied := -1, -1;
      nextIndex, matchIndex := map[], map[];
      servers, rooms := map[], map[];
      stopCh := new StopChannel();
    }

    method Stop()
      modifies stopCh
      ensures stopCh.closed
    {
      if !stopCh.closed {
        stopCh.Close();
      }
    }

    method BecomeLeader(term: int)
      requires Valid()
      modifies this`isLeader, this`currentTerm, this`nextIndex, this`matchIndex
      ensures Valid() && View() == LogModel.BecomeLeader(old(View()), term)
    {
      isLeader := true;
      currentTerm := term;
      var lastIdx := |log|;
      var i := 0;
      while i < |peers|
        invariant 0 <= i <= |peers|
        invariant isLeader && currentTerm == term
        invariant LogModel.Reset(nextIndex, peers[i..], lastIdx) == LogModel.Reset(old(nextIndex), peers, lastIdx)
        invariant LogModel.Reset(matchIndex, peers[i..], -1) == LogModel.Reset(old(matchIndex), peers, -1)
      {
        nextIndex := nextIndex[peers[i] := lastIdx];
        matchIndex := matchIndex[peers[i] := -1];
        assert peers[i..][1..] == peers[i + 1..];
        i := i + 1;
      }
      LogModel.BecomeLeaderKeepsValid(old(View()), term);
    }

    method BecomeFollower(term: int)
      requires Valid()
      modifies this
      ensures Valid() && View() == LogModel.BecomeFollower(old(View()), term)
    {
      isLeader := false;
      currentTerm := term;
    }

    method SendAppendEntriesTo(followerID: nat) returns (req: AppendRequest)
      requires Valid()
      ensures req == LogModel.BuildRequest(View(), followerID)
    {
      var nextIdx := if followerID in nextIndex then nextIndex[followerID] else 0;
      var prevLogIndex := nextIdx - 1;
      var prevLogTerm := -1;
      if prevLogIndex >= 0 && prevLogIndex < |log| {
        prevLogTerm := log[prevLogIndex].term;
      }
      var entries := [];
      if nextIdx < |log| {
        entries := log[nextIdx..];
      }
      req := AppendRequest(currentTerm, nodeID, prevLogIndex, prevLogTerm, entries, commitIndex);
    }

    method SendAppendEntriesToAll() returns (sent: seq<Outgoing>)
      requires Valid()
      ensures sent == Broadcast(View())
    {
      sent := [];
      var i := 0;
      while i < |peers|
        invariant 0 <= i <= |peers|
        invariant sent == Broadcast(View())[..i]
      {
        var req := SendAppendEntriesTo(peers[i]);
        sent := sent + [Outgoing(peers[i], req)];
        i := i + 1;
      }
    }

    /** Counts the peers known to hold index n, starting from the leader itself. */
    method CountReplicas(n: int) returns (count: nat)
      ensures count == LogModel.Replicas(View(), n)
    {
      ghost var list := LogModel.MatchList(peers, matchIndex);
      count := 1;
      var i := 0;
      while i < |peers|
        invariant 0 <= i <= |peers|
        invariant count + CountAtLeast(list[i..], n) == LogModel.Replicas(View(), n)
      {
        var matched := if peers[i] in matchIndex then matchIndex[peers[i]] else 0;
        if matched >= n {
          count := count + 1;
        }
        assert list[i..][1..] == list[i + 1..];
        i := i + 1;
      }
    }

    method TryAdvanceCommitIndex()
      requires Valid()
      modifies this`commitIndex
      ensures Valid() && View() == LogModel.TryAdvance(old(View()))
    {
      var n := |log| - 1;
      while n > commitIndex
        invariant -1 <= n < |log| || n <= commitIndex
        invariant n < |log| && commitIndex == old(commitIndex)
        invariant LogModel.ScanCommit(old(View()), n) == LogModel.ScanCommit(old(View()), |log| - 1)
      {
        if log[n].term == currentTerm {
          var count := CountReplicas(n);
          if count >= Majority(|peers| + 1) {
            commitIndex := n;
            break;
          }
        }
        n := n - 1;
      }
    }

    method ApplyEntry(entry: LogEntry)
      modifies this`servers, this`rooms
      ensures RoutingTable(servers, rooms) == LogModel.ApplyEntry(old(RoutingTable(servers, rooms)), entry)
    {
      match entry.change
      case AddRoom => rooms := rooms[entry.key := RoutingEntry(entry.key, entry.value)];
      case AddServer => servers := servers[entry.key := entry.value];
      case OtherChange(_) =>
    }

    method ApplyCommitted()
      requires Valid() && LogModel.CanApply(View())
      modifies this`lastApplied, this`servers, this`rooms
      ensures Valid() && View() == LogModel.ApplyCommitted(old(View()))
    {
      while lastApplied < commitIndex
        invariant Valid() && LogModel.CanApply(View())
        invariant LogModel.ApplyCommitted(View()) == LogModel.ApplyCommitted(old(View()))
      {
        lastApplied := lastApplied + 1;
        ApplyEntry(log[lastApplied]);
      }
    }

    method HandleAppendEntriesResponse(resp: AppendResponse) returns (retry: Option<AppendRequest>)
      requires Valid() && resp.matchIndex >= -1
      modifies this
      ensures Valid() && LogModel.Response(View(), retry) == LogModel.HandleResponse(old(View()), resp)
    {
      retry := None;
      if resp.term > currentTerm {
        isLeader := false;
        currentTerm := resp.term;
        return;
      }
      if resp.success {
        matchIndex := matchIndex[resp.followerID := resp.matchIndex];
        nextIndex := nextIndex[resp.followerID := resp.matchIndex + 1];
        TryAdvanceCommitIndex();
      } else {
        var next := if resp.followerID in nextIndex then nextIndex[resp.followerID] else 0;
        if next > 0 {
          nextIndex := nextIndex[resp.followerID := next - 1];
        }
        var req := SendAppendEntriesTo(resp.followerID);
        retry := Some(req);
      }
    }

    /** Other goroutines' critical sections, run while a proposal of this node has released the lock. */
    method Interleave(xs: seq<Section>)
      requires Valid() && CanMeanwhile(View(), xs)
      modifies this
      ensures Valid() && View() == Meanwhile(old(View()), xs)
    {
      var i := 0;
      assert xs[0..] == xs;
      while i < |xs|
        invariant 0 <= i <= |xs|
        invariant Valid() && CanMeanwhile(View(), xs[i..])
        invariant Meanwhile(View(), xs[i..]) == Meanwhile(old(View()), xs)
      {
        assert xs[i..][0] == xs[i] && xs[i..][1..] == xs[i + 1..];
        ghost var before := View();
        Interrupt(xs[i]);
        assert View() == Run(before, xs[i]);
        i := i + 1;
      }
    }

    method Interrupt(x: Section)
      requires Valid() && CanRun(View(), x)
      modifies this
      ensures Valid() && View() == Run(old(View()), x)
    {
      match x
      case Received(req) =>
        var resp := HandleAppendEntries(req);
      case Proposed(change, key, value) =>
        if isLeader {
          log := log + [LogEntry(currentTerm, |log|, change, key, value)];
        }
      case Answered(resp) =>
        var retry := HandleAppendEntriesResponse(resp);
      case Settled => ApplyCommitted();
      case Elected(term) => BecomeLeader(term);
      case Demoted(term) => BecomeFollower(term);
    }

    /** `arrivals` are the responses received before the deadline or the stop signal, with what else ran
        on this node around them. */
    method WaitForMajority(targetIndex: int, arrivals: seq<Arrival>)
      returns (committed: bool, sent: seq<Outgoing>)
      requires Valid() && CanAwait(View(), targetIndex, arrivals)
      modifies this
      ensures Valid() && Outcome(View(), committed, sent) == Await(old(View()), targetIndex, arrivals)
    {
      hide Await, CanAwait, LogModel.HandleResponse, LogModel.ApplyCommitted, Meanwhile, CanMeanwhile;
      sent := [];
      assert After([], Await(View(), targetIndex, arrivals)) == Await(View(), targetIndex, arrivals);
      assert arrivals[0..] == arrivals;
      var i := 0;
      while i < |arrivals|
        invariant 0 <= i <= |arrivals|
        invariant Valid() && CanAwait(View(), targetIndex, arrivals[i..])
        invariant After(sent, Await(View(), targetIndex, arrivals[i..])) == Await(old(View()), targetIndex, arrivals)
      {
        assert arrivals[i..][0] == arrivals[i] && arrivals[i..][1..] == arrivals[i + 1..];
        AwaitOne(View(), targetIndex, arrivals[i..], sent);
        Interleave(arrivals[i].before);
        var retry := HandleAppendEntriesResponse(arrivals[i].resp);
        if retry.Some? {
          sent := sent + [Outgoing(arrivals[i].resp.followerID, retry.value)];
        }
        Interleave(arrivals[i].between);
        if commitIndex >= targetIndex {
          ApplyCommitted();
          return true, sent;
        }
        i := i + 1;
      }
      committed := false;
      AwaitNothing(View(), targetIndex);
      assert arrivals[i..] == [] && sent + [] == sent;
    }

    /** The entry is appended, broadcast and waited for in separate critical sections; the course says what
        other goroutines do to this node in between. */
    method ProposeEntry(change: ChangeType, key: string, value: string, course: Course)
      returns (committed: bool, sent: seq<Outgoing>)
      requires Valid() && CanPropose(View(), change, key, value, course)
      modifies this
      ensures Valid() && Outcome(View(), committed, sent) == Propose(old(View()), change, key, value, course)
    {
      if !isLeader {
        return false, [];
      }
      var entry := LogEntry(currentTerm, |log|, change, key, value);
      log := log + [entry];
      Interleave(course.gap);
      sent := SendAppendEntriesToAll();
      var retries;
      committed, retries := WaitForMajority(entry.index, course.arrivals);
      sent := sent + retries;
      if committed {
        Interleave(course.last);
        var final := SendAppendEntriesToAll();
        sent := sent + final;
      }
    }

    method HandleAppendEntries(req: AppendRequest) returns (resp: AppendResponse)
      requires Valid() && req.prevLogIndex >= -1
      modifies this
      ensures Valid() && LogModel.Reply(View(), resp) == LogModel.HandleAppendEntries(old(View()), req)
    {
      if req.term < currentTerm {
        return AppendResponse(currentTerm, false, nodeID, -1);
      }
      currentTerm := req.term;
      if req.prevLogIndex >= 0 {
        if req.prevLogIndex >= |log| {
          return AppendResponse(currentTerm, false, nodeID, |log| - 1);
        }
        if log[req.prevLogIndex].term != req.prevLogTerm {
          log := log[..req.prevLogIndex];
          return AppendResponse(currentTerm, false, nodeID, |log| - 1);
        }
      }
      MergeEntries(req.prevLogIndex + 1, req.entries);
      if req.leaderCommit > commitIndex {
        var oldCommit := commitIndex;
        var lastNewIdx := |log| - 1;
        if req.leaderCommit < lastNewIdx {
          commitIndex := req.leaderCommit;
        } else {
          commitIndex := lastNewIdx;
        }
        if commitIndex > oldCommit {
          ApplyCommitted();
        }
      }
      resp := AppendResponse(currentTerm, true, nodeID, |log| - 1);
    }

    /** The conflict scan of HandleAppendEntries. */
    method MergeEntries(insertIdx: nat, entries: seq<LogEntry>)
      requires insertIdx <= |log|
      modifies this`log
      ensures log == LogModel.Merge(old(log), insertIdx, entries)
    {
      var i := 0;
      while i < |entries|
        invariant 0 <= i <= |entries| && log == old(log)
        invariant insertIdx + i <= |log|
        invariant LogModel.Merge(log, insertIdx + i, entries[i..]) == LogModel.Merge(log, insertIdx, entries)
      {
        var logIdx := insertIdx + i;
        if logIdx < |log| {
          if log[logIdx].term != entries[i].term {
            log := log[..logIdx];
            log := log + entries[i..];
            break;
          }
        } else {
          log := log + entries[i..];
          break;
        }
        assert entries[i..][1..] == entries[i + 1..];
        i := i + 1;
      }
    }
  }
}
