/** A whole ProposeEntry call, as seen by the goroutine that runs it. What else happens on the node while
    the call has released the lock, and which responses reach it before its deadline, is its course. */
module Proposal {
  import opened Types
  import opened Quorum
  import opened Ordering
  import opened LogModel
  import opened Sections

  datatype Outgoing = Outgoing(dst: nat, req: AppendRequest)

  function Broadcast(s: LogState): seq<Outgoing>
    requires Valid(s)
  {
    seq(|s.peers|, i requires 0 <= i < |s.peers| => Outgoing(s.peers[i], BuildRequest(s, s.peers[i])))
  }

  datatype Outcome = Outcome(state: LogState, committed: bool, sent: seq<Outgoing>)

  /** A response received by the waiting loop: what ran before it was handled, and what ran between handling
      it and looking at the commit index. */
  datatype Arrival = Arrival(before: seq<Section>, resp: AppendResponse, between: seq<Section>)

  // ---------- the waiting loop ----------

  ghost predicate CanHandle(s: LogState, a: Arrival)
    requires Valid(s)
  {
    && CanMeanwhile(s, a.before) && a.resp.matchIndex >= -1
    && CanMeanwhile(Handled(s, a), a.between)
  }

  /** Right after the response was handled. */
  function Handled(s: LogState, a: Arrival): (r: LogState)
    requires Valid(s) && CanMeanwhile(s, a.before) && a.resp.matchIndex >= -1
    ensures Valid(r) && r.peers == s.peers
  {
    HandleResponseKeeps(Meanwhile(s, a.before), a.resp);
    HandleResponse(Meanwhile(s, a.before), a.resp).state
  }

  /** When the loop looks at the commit index. */
  function Checked(s: LogState, a: Arrival): (r: LogState)
    requires Valid(s) && CanHandle(s, a)
    ensures Valid(r) && r.peers == s.peers
  {
    Meanwhile(Handled(s, a), a.between)
  }

  /** What the response makes the node send. */
  function Resent(s: LogState, a: Arrival): seq<Outgoing>
    requires Valid(s) && CanHandle(s, a)
  {
    var retry := HandleResponse(Meanwhile(s, a.before), a.resp).retry;
    if retry.Some? then [Outgoing(a.resp.followerID, retry.value)] else []
  }

  ghost predicate CanAwait(s: LogState, target: int, arrivals: seq<Arrival>)
    requires Valid(s)
    decreases |arrivals|
  {
    arrivals == [] ||
    (&& CanHandle(s, arrivals[0])
     && var s' := Checked(s, arrivals[0]);
        if s'.commitIndex >= target then CanApply(s') else CanAwait(s', target, arrivals[1..]))
  }

  function Await(s: LogState, target: int, arrivals: seq<Arrival>): (o: Outcome)
    requires Valid(s) && CanAwait(s, target, arrivals)
    ensures Valid(o.state)
    decreases |arrivals|
  {
    if arrivals == [] then Outcome(s, false, [])
    else
      var s' := Checked(s, arrivals[0]);
      var sent := Resent(s, arrivals[0]);
      if s'.commitIndex >= target then
        ApplyCommittedFolds(s');
        Outcome(ApplyCommitted(s'), true, sent)
      else
        After(sent, Await(s', target, arrivals[1..]))
  }

  function After(sent: seq<Outgoing>, o: Outcome): Outcome {
    Outcome(o.state, o.committed, sent + o.sent)
  }

  lemma AwaitNothing(s: LogState, target: int)
    requires Valid(s)
    ensures CanAwait(s, target, []) && Await(s, target, []) == Outcome(s, false, [])
  {
  }

  /** One turn of the waiting loop, with what was sent before. */
  lemma AwaitOne(s: LogState, target: int, arrivals: seq<Arrival>, sent: seq<Outgoing>)
    requires Valid(s) && arrivals != [] && CanAwait(s, target, arrivals)
    ensures var s', now := Checked(s, arrivals[0]), Resent(s, arrivals[0]);
            && CanHandle(s, arrivals[0])
            && (if s'.commitIndex >= target then CanApply(s') else CanAwait(s', target, arrivals[1..]))
            && After(sent, Await(s, target, arrivals)) ==
               if s'.commitIndex >= target then Outcome(ApplyCommitted(s'), true, sent + now)
               else After(sent + now, Await(s', target, arrivals[1..]))
  {
    var s', now := Checked(s, arrivals[0]), Resent(s, arrivals[0]);
    if s'.commitIndex < target {
      var rest := Await(s', target, arrivals[1..]).sent;
      assert sent + (now + rest) == (sent + now) + rest;
    }
  }

  /** No request of another leader is handled during the wait. */
  predicate LocalArrivals(arrivals: seq<Arrival>) {
    forall k :: 0 <= k < |arrivals| ==> Local(arrivals[k].before) && Local(arrivals[k].between)
  }

  ghost predicate ArrivalCounts(s: LogState, a: Arrival, target: int)
    requires Valid(s) && CanHandle(s, a)
  {
    Counts(s, a.before, target) || Quorate(Handled(s, a), target) || Counts(Handled(s, a), a.between, target)
  }

  /** At some moment of the wait an answer had just been handled, by this or another proposal of the node,
      and a quorum of recorded match indices was counted for an index at or above the target. */
  ghost predicate AwaitCounted(s: LogState, target: int, arrivals: seq<Arrival>)
    requires Valid(s) && CanAwait(s, target, arrivals)
    decreases |arrivals|
  {
    && arrivals != []
    && (ArrivalCounts(s, arrivals[0], target)
        || (&& Checked(s, arrivals[0]).commitIndex < target
            && AwaitCounted(Checked(s, arrivals[0]), target, arrivals[1..])))
  }

  lemma ArrivalGrows(s: LogState, a: Arrival, target: int)
    requires Valid(s) && CanHandle(s, a) && Local(a.before) && Local(a.between)
    ensures Grows(s, Checked(s, a))
    ensures s.commitIndex < target <= Checked(s, a).commitIndex ==> ArrivalCounts(s, a, target)
  {
    hide Valid, CanMeanwhile, Meanwhile, Local, Grows, Counts, Quorate, HandleResponse;
    var s1 := Meanwhile(s, a.before);
    MeanwhileGrows(s, a.before, target);
    LocalGrows(s1, Answered(a.resp));
    assert Run(s1, Answered(a.resp)) == Handled(s, a);
    MeanwhileGrows(Handled(s, a), a.between, target);
    GrowsTrans(s, s1, Handled(s, a));
    GrowsTrans(s, Handled(s, a), Checked(s, a));
    QuorateLower(Handled(s, a), target);
  }

  lemma QuorateLower(s: LogState, target: int)
    ensures target <= s.commitIndex && Quorate(s, s.commitIndex) ==> Quorate(s, target)
  {
  }

  /** A wait that succeeds ends with everything up to the target applied. If no request of another leader was
      handled meanwhile, the log has only grown, and a quorum was counted if the target was not yet committed. */
  lemma {:induction false} AwaitCounts(s: LogState, target: int, arrivals: seq<Arrival>)
    requires Valid(s) && CanAwait(s, target, arrivals)
    ensures var o := Await(s, target, arrivals);
            && o.state.peers == s.peers
            && (o.committed ==> o.state.commitIndex >= target && o.state.lastApplied >= o.state.commitIndex)
            && (LocalArrivals(arrivals) ==> Grows(s, o.state))
            && (LocalArrivals(arrivals) && o.committed && s.commitIndex < target ==> AwaitCounted(s, target, arrivals))
    decreases |arrivals|
  {
    hide Valid, CanHandle, Checked, Resent, Grows, ArrivalCounts, ApplyCommitted, CanApply, Local;
    if arrivals == [] {
      SameGrows(s);
    } else {
      var s' := Checked(s, arrivals[0]);
      if LocalArrivals(arrivals) {
        LocalTail(arrivals);
        ArrivalGrows(s, arrivals[0], target);
      }
      if s'.commitIndex >= target {
        ApplyCommittedFolds(s');
        AppliedGrows(s');
        if LocalArrivals(arrivals) { GrowsTrans(s, s', ApplyCommitted(s')); }
      } else {
        AwaitCounts(s', target, arrivals[1..]);
        if LocalArrivals(arrivals) { GrowsTrans(s, s', Await(s', target, arrivals[1..]).state); }
      }
    }
  }

  lemma SameGrows(s: LogState)
    ensures Grows(s, s)
  {
  }

  lemma LocalTail(arrivals: seq<Arrival>)
    requires arrivals != [] && LocalArrivals(arrivals)
    ensures Local(arrivals[0].before) && Local(arrivals[0].between) && LocalArrivals(arrivals[1..])
  {
  }

  // ---------- the whole call ----------

  /** What runs before the broadcast, the wait, and what runs before the last broadcast. */
  datatype Course = Course(gap: seq<Section>, arrivals: seq<Arrival>, last: seq<Section>)

  /** The wait of this call, once its entry is appended. */
  function Waiting(s: LogState, change: ChangeType, key: string, value: string, gap: seq<Section>): (r: LogState)
    requires Valid(s) && CanMeanwhile(Append(s, NewEntry(s, change, key, value)), gap)
    ensures Valid(r) && r.peers == s.peers
  {
    Meanwhile(Append(s, NewEntry(s, change, key, value)), gap)
  }

  ghost predicate CanPropose(s: LogState, change: ChangeType, key: string, value: string, course: Course)
    requires Valid(s)
  {
    s.isLeader ==>
      && CanMeanwhile(Append(s, NewEntry(s, change, key, value)), course.gap)
      && var w := Waiting(s, change, key, value, course.gap);
      && CanAwait(w, |s.log|, course.arrivals)
      && var o := Await(w, |s.log|, course.arrivals);
      && (o.committed ==> CanMeanwhile(o.state, course.last))
  }

  function Propose(s: LogState, change: ChangeType, key: string, value: string, course: Course): Outcome
    requires Valid(s) && CanPropose(s, change, key, value, course)
  {
    if !s.isLeader then Outcome(s, false, [])
    else
      var w := Waiting(s, change, key, value, course.gap);
      var o := Await(w, |s.log|, course.arrivals);
      if o.committed then
        var end := Meanwhile(o.state, course.last);
        Outcome(end, true, Broadcast(w) + o.sent + Broadcast(end))
      else Outcome(o.state, false, Broadcast(w) + o.sent)
  }

  predicate LocalCourse(course: Course) {
    Local(course.gap) && LocalArrivals(course.arrivals) && Local(course.last)
  }

  /** At some moment between the append and the success a quorum was counted for the new entry, or one above. */
  ghost predicate ProposalCounted(s: LogState, change: ChangeType, key: string, value: string, course: Course)
    requires Valid(s) && s.isLeader && CanPropose(s, change, key, value, course)
  {
    || Counts(Append(s, NewEntry(s, change, key, value)), course.gap, |s.log|)
    || AwaitCounted(Waiting(s, change, key, value, course.gap), |s.log|, course.arrivals)
  }

  /** Only a leader can succeed. As long as no other leader's request is handled while the lock is free,
      success means the new entry is at its place in the log, at or below the commit index, and a quorum of
      recorded match indices was counted for it or for an entry above it, whatever else the node did
      meanwhile. */
  lemma ProposeSucceeds(s: LogState, change: ChangeType, key: string, value: string, course: Course)
    requires Valid(s) && CanPropose(s, change, key, value, course) && LocalCourse(course)
    requires s.commitIndex < |s.log|
    requires Propose(s, change, key, value, course).committed
    ensures var s' := Propose(s, change, key, value, course).state;
            && s.isLeader
            && s.log + [LogEntry(s.currentTerm, |s.log|, change, key, value)] <= s'.log
            && |s.log| <= s'.commitIndex < |s'.log|
            && (TableIsFold(s) ==> TableIsFold(s'))
            && ProposalCounted(s, change, key, value, course)
  {
    hide CanMeanwhile, Meanwhile, CanAwait, Await, AwaitCounted, Counts, Local, LocalArrivals, TableIsFold;
    var n := |s.log|;
    var s1 := Append(s, NewEntry(s, change, key, value));
    assert TableIsFold(s) ==> TableIsFold(s1) by { if TableIsFold(s) { FoldKept(s, s1); } }
    var w := Waiting(s, change, key, value, course.gap);
    var o := Await(w, n, course.arrivals);
    MeanwhileGrows(s1, course.gap, n);
    AwaitCounts(w, n, course.arrivals);
    MeanwhileGrows(o.state, course.last, n);
  }

  /** What has been applied when a call succeeds, whatever happened meanwhile: everything up to its index. */
  lemma SuccessIsApplied(s: LogState, change: ChangeType, key: string, value: string, course: Course)
    requires Valid(s) && CanPropose(s, change, key, value, course) && s.isLeader
    ensures var w := Waiting(s, change, key, value, course.gap);
            var o := Await(w, |s.log|, course.arrivals);
            && o.committed == Propose(s, change, key, value, course).committed
            && (o.committed ==> |s.log| <= o.state.commitIndex <= o.state.lastApplied)
  {
    AwaitCounts(Waiting(s, change, key, value, course.gap), |s.log|, course.arrivals);
  }

  // ---------- a call during which nothing else happens ----------

  predicate Alone(arrivals: seq<Arrival>) {
    forall k :: 0 <= k < |arrivals| ==> arrivals[k].before == [] && arrivals[k].between == []
  }

  /** A wait during which the node does nothing else leaves the log alone, and the quorum still counts when
      it ends. */
  lemma {:induction false} AwaitAlone(s: LogState, target: nat, arrivals: seq<Arrival>)
    requires Valid(s) && CanAwait(s, target, arrivals) && Alone(arrivals) && s.commitIndex < |s.log|
    ensures var o := Await(s, target, arrivals);
            && o.state.log == s.log && o.state.commitIndex < |s.log| && o.state.peers == s.peers
            && (o.committed ==> o.state.lastApplied >= o.state.commitIndex >= target)
            && (o.committed && s.commitIndex < target ==> Committable(o.state, o.state.commitIndex))
    decreases |arrivals|
  {
    if arrivals != [] {
      var s' := HandleResponse(s, arrivals[0].resp).state;
      assert Checked(s, arrivals[0]) == s';
      HandleResponseKeeps(s, arrivals[0].resp);
      AdvanceIsCounted(s, arrivals[0].resp);
      hide HandleResponse, Checked, Resent;
      if s'.commitIndex >= target {
        ApplyCommittedFolds(s');
      } else {
        AwaitAlone(s', target, arrivals[1..]);
      }
    }
  }

  /** Then success means exactly this: the log has grown by the new entry, which is committed, applied, and
      counted on a quorum of recorded match indices. */
  lemma ProposeAlone(s: LogState, change: ChangeType, key: string, value: string, course: Course)
    requires Valid(s) && CanPropose(s, change, key, value, course) && s.commitIndex < |s.log|
    requires course.gap == [] && Alone(course.arrivals) && course.last == []
    requires Propose(s, change, key, value, course).committed
    ensures var s' := Propose(s, change, key, value, course).state;
            && s.isLeader
            && s'.log == s.log + [LogEntry(s.currentTerm, |s.log|, change, key, value)]
            && s'.commitIndex == |s.log| <= s'.lastApplied
            && Replicas(s', |s.log|) >= Majority(|s.peers| + 1)
  {
    AwaitAlone(Waiting(s, change, key, value, []), |s.log|, course.arrivals);
  }

  // ---------- a commit index beyond the log ----------

  /** Other proposals of the same node, as many as given. */
  function OtherProposals(k: nat): seq<Section> {
    if k == 0 then [] else [Proposed(AddServer, "", "")] + OtherProposals(k - 1)
  }

  /** They lengthen the log and do nothing else; in particular nobody counts anything. */
  lemma {:induction false} OthersLengthen(s: LogState, k: nat, target: int)
    requires Valid(s) && s.isLeader
    ensures Local(OtherProposals(k)) && CanMeanwhile(s, OtherProposals(k))
    ensures var s' := Meanwhile(s, OtherProposals(k));
            s' == s.(log := s'.log) && |s'.log| == |s.log| + k && !Counts(s, OtherProposals(k), target)
    decreases k
  {
    if k > 0 {
      var xs := OtherProposals(k);
      assert xs[1..] == OtherProposals(k - 1);
      OthersLengthen(Run(s, xs[0]), k - 1, target);
    }
  }

  function Refusal(s: LogState, p: nat): Arrival {
    Arrival([], AppendResponse(s.currentTerm, false, p, -1), [])
  }

  /** One refusal, after as many other proposals as it takes for the log to reach the commit index. */
  function OneRefusal(s: LogState, p: nat): Course {
    Course(OtherProposals(if s.commitIndex > |s.log| then s.commitIndex - |s.log| else 0), [Refusal(s, p)], [])
  }

  /** No answer has been recorded since the node took office. */
  predicate NothingRecorded(s: LogState) {
    |s.peers| > 0 && forall q :: q in s.peers ==> Lookup(s.matchIndex, q) == -1
  }

  /** A leader whose commit index lies beyond its log takes even a refusal for success. If it has recorded no
      answer since it took office, no quorum is counted either. */
  lemma AnyAnswerWillDo(s: LogState, change: ChangeType, key: string, value: string, p: nat)
    requires Valid(s) && s.isLeader && s.commitIndex >= |s.log|
    ensures var course := OneRefusal(s, p);
            && LocalCourse(course) && CanPropose(s, change, key, value, course)
            && Propose(s, change, key, value, course).committed
            && (NothingRecorded(s) ==> !ProposalCounted(s, change, key, value, course))
  {
    var course, n := OneRefusal(s, p), |s.log|;
    var a := Refusal(s, p);
    var s1 := Append(s, NewEntry(s, change, key, value));
    OthersLengthen(s1, if s.commitIndex > n then s.commitIndex - n else 0, n);
    var w := Waiting(s, change, key, value, course.gap);
    HandleResponseKeeps(w, a.resp);
    var h := Handled(w, a);
    assert h == HandleResponse(w, a.resp).state && Checked(w, a) == h && h.commitIndex == s.commitIndex < |h.log|;
    hide HandleResponse, OtherProposals, Counts, Meanwhile;
    ApplyCommittedFolds(h);
    assert CanAwait(w, n, [a]) && Await(w, n, [a]).state == ApplyCommitted(h);
    if NothingRecorded(s) {
      RefusalCounts(s, h);
      assert [a][1..] == [];
      assert !AwaitCounted(w, n, [a]);
    }
  }

  lemma RefusalCounts(s: LogState, h: LogState)
    requires NothingRecorded(s)
    requires h.peers == s.peers && h.matchIndex == s.matchIndex && h.commitIndex == s.commitIndex >= 0
    ensures forall target :: !Quorate(h, target)
  {
    CountNone(MatchList(h.peers, h.matchIndex), h.commitIndex);
    assert Replicas(h, h.commitIndex) == 1;
  }

  /** A quorum counted is a quorum of recorded match indices. For a leader that has just taken office, and as
      long as its node handles no other leader's request while the call is under way, every call that
      returns true has counted one for its entry exactly when the commit index lies inside the log. Whether
      the indices recorded are true is another matter: see Commitment and StaleAnswer. */
  lemma SuccessIsCountedIff(s: LogState, term: int, change: ChangeType, key: string, value: string)
    requires Valid(s) && |s.peers| > 0
    ensures Valid(BecomeLeader(s, term))
    ensures s.commitIndex < |s.log| <==>
            forall course | CanPropose(BecomeLeader(s, term), change, key, value, course) && LocalCourse(course)
                            && Propose(BecomeLeader(s, term), change, key, value, course).committed
              :: ProposalCounted(BecomeLeader(s, term), change, key, value, course)
  {
    var l := BecomeLeader(s, term);
    BecomeLeaderKeepsValid(s, term);
    if s.commitIndex < |s.log| {
      forall course | CanPropose(l, change, key, value, course) && LocalCourse(course)
                      && Propose(l, change, key, value, course).committed
        ensures ProposalCounted(l, change, key, value, course)
      {
        ProposeSucceeds(l, change, key, value, course);
      }
    } else {
      forall q | q in s.peers ensures Lookup(l.matchIndex, q) == -1 {
        ResetAt(s.matchIndex, s.peers, -1, q);
      }
      AnyAnswerWillDo(l, change, key, value, s.peers[0]);
    }
  }
}
