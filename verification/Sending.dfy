/** What a proposal puts on the wire, read from the messages themselves. */
module Sending {
  import opened Types
  import opened LogModel
  import opened Sections
  import opened Proposal

  /** The message carries, to node p, everything from position `next` of this log on, with the entry before it
      named, under this term, and announces this commit index. */
  ghost predicate Carries(m: Outgoing, p: nat, id: nat, term: int, log: seq<LogEntry>, next: int, commit: int) {
    && m.dst == p && m.req.leaderID == id && m.req.term == term && m.req.leaderCommit == commit
    && m.req.prevLogIndex == next - 1
    && m.req.prevLogTerm == (if 0 < next <= |log| then log[next - 1].term else -1)
    && (if 0 <= next < |log| then m.req.entries == log[next..] else m.req.entries == [])
  }

  /** One such message to every peer, in the order of the peers, from this position of the list on. */
  ghost predicate ToEveryPeer(sent: seq<Outgoing>, from: int, s: LogState) {
    && 0 <= from <= |sent| - |s.peers|
    && forall i :: 0 <= i < |s.peers| ==>
         Carries(sent[from + i], s.peers[i], s.id, s.currentTerm, s.log, Lookup(s.nextIndex, s.peers[i]), s.commitIndex)
  }

  lemma BroadcastCarries(s: LogState)
    requires Valid(s)
    ensures ToEveryPeer(Broadcast(s), 0, s) && |Broadcast(s)| == |s.peers|
  {
    forall i | 0 <= i < |s.peers|
      ensures Carries(Broadcast(s)[0 + i], s.peers[i], s.id, s.currentTerm, s.log,
                      Lookup(s.nextIndex, s.peers[i]), s.commitIndex)
    {
      assert Broadcast(s)[i] == Outgoing(s.peers[i], BuildRequest(s, s.peers[i]));
    }
  }

  /** A refusal in the node's own term, or an earlier one, is answered by a request that starts one entry
      earlier, unless it started at the first; nothing else is. */
  lemma RefusalIsRetried(s: LogState, resp: AppendResponse)
    requires Valid(s) && resp.matchIndex >= -1
    ensures var r := HandleResponse(s, resp);
            var next := Lookup(s.nextIndex, resp.followerID);
            var earlier := if next > 0 then next - 1 else next;
            && (r.retry.Some? <==> !resp.success && resp.term <= s.currentTerm)
            && (r.retry.Some? ==>
                  && r.state == s.(nextIndex := r.state.nextIndex)
                  && (forall q :: q != resp.followerID ==> Lookup(r.state.nextIndex, q) == Lookup(s.nextIndex, q))
                  && Lookup(r.state.nextIndex, resp.followerID) == earlier
                  && Carries(Outgoing(resp.followerID, r.retry.value), resp.followerID, s.id, s.currentTerm, s.log,
                             earlier, s.commitIndex))
  {
  }

  /** The state in which a refusal was handled, and the refusal. */
  datatype Refused = Refused(state: LogState, resp: AppendResponse)

  /** The refusals that a wait answers, until it succeeds. */
  function Refusals(s: LogState, target: int, arrivals: seq<Arrival>): (r: seq<Refused>)
    requires Valid(s) && CanAwait(s, target, arrivals)
    decreases |arrivals|
  {
    if arrivals == [] then []
    else
      var n, resp := Meanwhile(s, arrivals[0].before), arrivals[0].resp;
      (if !resp.success && resp.term <= n.currentTerm then [Refused(n, resp)] else [])
      + if Checked(s, arrivals[0]).commitIndex >= target then []
        else Refusals(Checked(s, arrivals[0]), target, arrivals[1..])
  }

  /** One message, to the node that refused, from one entry earlier on. */
  ghost predicate Retries(m: Outgoing, r: Refused) {
    var next := Lookup(r.state.nextIndex, r.resp.followerID);
    Carries(m, r.resp.followerID, r.state.id, r.state.currentTerm, r.state.log,
            if next > 0 then next - 1 else next, r.state.commitIndex)
  }

  ghost predicate AllRetried(sent: seq<Outgoing>, refused: seq<Refused>) {
    |sent| == |refused| && forall k :: 0 <= k < |sent| ==> Retries(sent[k], refused[k])
  }

  lemma RetriedFirst(m: seq<Outgoing>, r: seq<Refused>, sent: seq<Outgoing>, refused: seq<Refused>)
    requires AllRetried(m, r) && AllRetried(sent, refused)
    ensures AllRetried(m + sent, r + refused)
  {
  }

  lemma {:induction false} AwaitRetries(s: LogState, target: int, arrivals: seq<Arrival>)
    requires Valid(s) && CanAwait(s, target, arrivals)
    ensures AllRetried(Await(s, target, arrivals).sent, Refusals(s, target, arrivals))
    decreases |arrivals|
  {
    hide HandleResponse, Meanwhile, CanMeanwhile, Carries, Checked;
    if arrivals != [] {
      var a, s' := arrivals[0], Checked(s, arrivals[0]);
      var n := Meanwhile(s, a.before);
      RefusalIsRetried(n, a.resp);
      var r := if !a.resp.success && a.resp.term <= n.currentTerm then [Refused(n, a.resp)] else [];
      assert AllRetried(Resent(s, a), r);
      if s'.commitIndex < target {
        AwaitRetries(s', target, arrivals[1..]);
        hide AllRetried;
        RetriedFirst(Resent(s, a), r, Await(s', target, arrivals[1..]).sent, Refusals(s', target, arrivals[1..]));
      }
    }
  }

  /** Nothing but these three parts. */
  ghost predicate Parts(sent: seq<Outgoing>, before: LogState, refused: seq<Refused>, committed: bool,
                        after: LogState)
  {
    var n, k := |before.peers|, |refused|;
    && |sent| == n + k + (if committed then |after.peers| else 0)
    && ToEveryPeer(sent, 0, before)
    && AllRetried(sent[n..n + k], refused)
    && (committed ==> ToEveryPeer(sent, n + k, after))
  }

  lemma SameLength(sent: seq<Outgoing>, refused: seq<Refused>)
    requires AllRetried(sent, refused)
    ensures |sent| == |refused|
  {
  }

  lemma PartOf(part: seq<Outgoing>, sent: seq<Outgoing>, from: nat, s: LogState)
    requires ToEveryPeer(part, 0, s) && |part| == |s.peers|
    requires from + |part| <= |sent| && sent[from..from + |part|] == part
    ensures ToEveryPeer(sent, from, s)
  {
    hide Carries;
    forall i | 0 <= i < |s.peers|
      ensures Carries(sent[from + i], s.peers[i], s.id, s.currentTerm, s.log,
                      Lookup(s.nextIndex, s.peers[i]), s.commitIndex)
    {
      assert sent[from + i] == sent[from..from + |part|][i] == part[0 + i];
    }
  }

  lemma PartsTogether(first: seq<Outgoing>, retried: seq<Outgoing>, last: seq<Outgoing>,
                      before: LogState, refused: seq<Refused>, committed: bool, after: LogState)
    requires ToEveryPeer(first, 0, before) && |first| == |before.peers|
    requires AllRetried(retried, refused)
    requires if committed then ToEveryPeer(last, 0, after) && |last| == |after.peers| else last == []
    ensures Parts(first + retried + last, before, refused, committed, after)
  {
    hide ToEveryPeer, AllRetried;
    var sent, n, k := first + retried + last, |first|, |refused|;
    assert |retried| == k by { SameLength(retried, refused); }
    assert sent[n..n + k] == retried && sent[0..n] == first && sent[n + k..n + k + |last|] == last;
    PartOf(first, sent, 0, before);
    if committed { PartOf(last, sent, n + k, after); }
  }

  /** A leader's proposal first sends every peer what that peer lacks, then retries what is refused, and on
      success tells every peer once more, with the commit index it ends with. It sends nothing else, and a
      node that does not lead sends nothing. */
  lemma ProposalSends(s: LogState, change: ChangeType, key: string, value: string, course: Course)
    requires Valid(s) && CanPropose(s, change, key, value, course)
    ensures var o := Propose(s, change, key, value, course);
            && (!s.isLeader ==> o.sent == [] && o.state == s && !o.committed)
            && (s.isLeader ==>
                  var w := Waiting(s, change, key, value, course.gap);
                  Parts(o.sent, w, Refusals(w, |s.log|, course.arrivals), o.committed, o.state))
  {
    hide Parts, AllRetried, ToEveryPeer, Meanwhile, CanMeanwhile, Await, CanAwait, Broadcast, Refusals;
    if s.isLeader {
      var w := Waiting(s, change, key, value, course.gap);
      var o := Await(w, |s.log|, course.arrivals);
      AwaitRetries(w, |s.log|, course.arrivals);
      BroadcastCarries(w);
      if o.committed {
        var end := Meanwhile(o.state, course.last);
        BroadcastCarries(end);
        PartsTogether(Broadcast(w), o.sent, Broadcast(end), w, Refusals(w, |s.log|, course.arrivals), true, end);
      } else {
        PartsTogether(Broadcast(w), o.sent, [], w, Refusals(w, |s.log|, course.arrivals), false, o.state);
        assert Broadcast(w) + o.sent + [] == Broadcast(w) + o.sent;
      }
    }
  }

  lemma AwaitPeers(s: LogState, target: int, arrivals: seq<Arrival>)
    requires Valid(s) && CanAwait(s, target, arrivals)
    ensures Await(s, target, arrivals).state.peers == s.peers
  {
    AwaitCounts(s, target, arrivals);
  }

  /** Every peer that is not known to be past the new entry is sent it. If nothing else ran before the
      broadcast, it is the last entry of the request, which is of the leader's term. */
  lemma NewEntryIsSent(s: LogState, change: ChangeType, key: string, value: string, course: Course, p: nat)
      returns (m: Outgoing)
    requires Valid(s) && CanPropose(s, change, key, value, course) && s.isLeader && p in s.peers
    requires Local(course.gap)
    requires Lookup(Waiting(s, change, key, value, course.gap).nextIndex, p) <= |s.log|
    ensures m in Propose(s, change, key, value, course).sent && m.dst == p && m.req.leaderID == s.id
    ensures var e := LogEntry(s.currentTerm, |s.log|, change, key, value);
            var at := |s.log| - (m.req.prevLogIndex + 1);
            && 0 <= at < |m.req.entries| && m.req.entries[at] == e
            && (course.gap == [] ==> m.req.term == s.currentTerm && m.req.prevLogIndex + |m.req.entries| == |s.log|)
  {
    var w := Waiting(s, change, key, value, course.gap);
    var s1 := Append(s, NewEntry(s, change, key, value));
    ProposalSends(s, change, key, value, course);
    MeanwhileGrows(s1, course.gap, 0);
    var i :| 0 <= i < |s.peers| && s.peers[i] == p;
    m := Propose(s, change, key, value, course).sent[i];
    assert m == Propose(s, change, key, value, course).sent[0 + i];
    assert w.log[|s.log|] == s1.log[|s.log|];
    assert Valid(w);
    NextIsNatural(w, p);
  }

  lemma NextIsNatural(s: LogState, p: nat)
    requires Valid(s)
    ensures Lookup(s.nextIndex, p) >= 0
  {
  }

  /** After a success every peer is told a commit index that covers the new entry, as long as no other leader's
      request was handled and the commit index was inside the log. */
  lemma CommitIsAnnounced(s: LogState, change: ChangeType, key: string, value: string, course: Course, p: nat)
      returns (m: Outgoing)
    requires Valid(s) && CanPropose(s, change, key, value, course) && LocalCourse(course)
    requires s.commitIndex < |s.log| && p in s.peers
    requires Propose(s, change, key, value, course).committed
    ensures m in Propose(s, change, key, value, course).sent && m.dst == p && m.req.leaderID == s.id
    ensures m.req.leaderCommit >= |s.log|
  {
    ProposeSucceeds(s, change, key, value, course);
    ProposalSends(s, change, key, value, course);
    ProposalPeers(s, change, key, value, course);
    var o := Propose(s, change, key, value, course);
    var i :| 0 <= i < |s.peers| && s.peers[i] == p;
    m := o.sent[|o.sent| - |s.peers| + i];
    assert Parts(o.sent, Waiting(s, change, key, value, course.gap),
                 Refusals(Waiting(s, change, key, value, course.gap), |s.log|, course.arrivals), true, o.state);
  }

  lemma ProposalPeers(s: LogState, change: ChangeType, key: string, value: string, course: Course)
    requires Valid(s) && CanPropose(s, change, key, value, course)
    ensures var s' := Propose(s, change, key, value, course).state; s'.peers == s.peers && s'.id == s.id
  {
    if s.isLeader {
      var w := Waiting(s, change, key, value, course.gap);
      AwaitPeers(w, |s.log|, course.arrivals);
      AwaitId(w, |s.log|, course.arrivals);
    }
  }

  lemma {:induction false} AwaitId(s: LogState, target: int, arrivals: seq<Arrival>)
    requires Valid(s) && CanAwait(s, target, arrivals)
    ensures Await(s, target, arrivals).state.id == s.id
    decreases |arrivals|
  {
    if arrivals != [] {
      var a := arrivals[0];
      HandleResponseKeeps(Meanwhile(s, a.before), a.resp);
      hide HandleResponse;
      var s' := Checked(s, a);
      if s'.commitIndex >= target {
        ApplyCommittedFolds(s');
      } else {
        AwaitId(s', target, arrivals[1..]);
      }
    }
  }
}
