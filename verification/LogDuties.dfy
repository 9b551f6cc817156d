/** What a log module must do when it is told something: a leader that hears of a higher term gives up and
    stays down until it is elected again, callbacks change its role, and whatever runs on it is one of the
    sections that a proposal reckons with. */
module LogDuties {
  import opened Types
  import opened LogModel
  import opened Sections
  import opened Ensemble
  import EC = ElectionCluster

  /** What every log module begins with. */
  lemma FreshLogs(s: System, i: nat)
    requires Fresh(s) && i in s.logs
    ensures var n := s.logs[i];
            && n.id == i && n.peers == s.election.nodes[i].peers && !n.isLeader && n.currentTerm == 0
            && n.log == [] && n.commitIndex == -1 && n.lastApplied == -1
            && n.nextIndex == map[] && n.matchIndex == map[] && n.table.servers == map[] && n.table.rooms == map[]
  {
  }

  /** An answer raises its receiver's term to its own. If that is news, the receiver no longer leads, and
      nothing else about it changes; in particular it sends nothing. */
  lemma AnswerRaisesTerm(s: System, k: Ack)
    requires Enabled(s, Acknowledge(k)) && Safe(s, Acknowledge(k))
    ensures var s', n := Step(s, Acknowledge(k)), s.logs[k.dst];
            && k.resp.term <= s'.logs[k.dst].currentTerm
            && s'.logs[k.dst].currentTerm == (if k.resp.term > n.currentTerm then k.resp.term else n.currentTerm)
            && (k.resp.term > n.currentTerm ==>
                  s' == s.(logs := s.logs[k.dst := n.(isLeader := false, currentTerm := k.resp.term)],
                           acks := s.acks - multiset{k}))
            && (k.resp.term <= n.currentTerm ==> s'.logs[k.dst].isLeader == n.isLeader)
  {
    HandleResponseKeeps(s.logs[k.dst], k.resp);
  }

  /** No step of the run tells node i that it leads. */
  predicate NotElected(run: seq<Action>, i: nat) {
    forall k :: 0 <= k < |run| && run[k].Notify? && run[k].call.LeaderCall? ==> run[k].call.node != i
  }

  lemma StepStaysDown(s: System, a: Action, i: nat)
    requires Enabled(s, a) && Safe(s, a) && i in s.logs && !s.logs[i].isLeader
    requires !(a.Notify? && a.call.LeaderCall? && a.call.node == i)
    ensures var s' := Step(s, a); i in s'.logs && !s'.logs[i].isLeader
  {
    hide Step;
    match a
    case Notify(call) => NotifyStep(s, call);
    case ProposeAt(_, _, _, _) => ProposeStep(s, a);
    case SendAll(j) => SendStep(s, a, j);
    case Finish(r) => SendStep(s, a, r.node);
    case Append(l) => AppendStep(s, l); AppendedRole(s.logs[l.dst], l.req);
    case Acknowledge(k) => AcknowledgeStep(s, k); AnsweredRole(s.logs[k.dst], k.resp);
    case Confirm(j, e) => ConfirmStep(s, j, e); ApplyCommittedFolds(s.logs[j]);
    case _ => RestStep(s, a);
  }

  lemma AppendedRole(n: LogState, req: AppendRequest)
    requires Valid(n) && req.prevLogIndex >= -1
    ensures HandleAppendEntries(n, req).state.isLeader == n.isLeader
  {
    if req.term >= n.currentTerm && HasPrevious(n.log, req) {
      FollowCommitState(n.(currentTerm := req.term, log := Merge(n.log, req.prevLogIndex + 1, req.entries)),
                        req.leaderCommit);
    }
  }

  lemma AnsweredRole(n: LogState, resp: AppendResponse)
    requires Valid(n) && resp.matchIndex >= -1
    ensures HandleResponse(n, resp).state.isLeader ==> n.isLeader
  {
  }

  lemma {:induction false} StaysDown(s: System, run: seq<Action>, i: nat)
    requires Possible(s, run) && NotElected(run, i) && i in s.logs && !s.logs[i].isLeader
    ensures var e := Exec(s, run); i in e.logs && !e.logs[i].isLeader
    decreases |run|
  {
    hide Step, Enabled, Safe;
    if run != [] {
      assert run[0].Notify? && run[0].call.LeaderCall? ==> run[0].call.node != i;
      StepStaysDown(s, run[0], i);
      assert forall k :: 0 <= k < |run[1..]| ==> run[1..][k] == run[k + 1];
      StaysDown(Step(s, run[0]), run[1..], i);
    }
  }

  /** After an answer of a higher term, in every further run in which the node is not told that it has won
      again, it does not lead and can propose nothing. */
  lemma OvertakenLeaderProposesNothing(s: System, k: Ack, run: seq<Action>,
                                       change: ChangeType, key: string, value: string)
    requires Enabled(s, Acknowledge(k)) && Safe(s, Acknowledge(k)) && k.resp.term > s.logs[k.dst].currentTerm
    requires Possible(Step(s, Acknowledge(k)), run) && NotElected(run, k.dst)
    ensures Step(s, Acknowledge(k)).logs[k.dst].currentTerm == k.resp.term
    ensures var e := Exec(Step(s, Acknowledge(k)), run);
            k.dst in e.logs && !e.logs[k.dst].isLeader && !Enabled(e, ProposeAt(k.dst, change, key, value))
  {
    hide Step, Possible, Exec;
    AnswerRaisesTerm(s, k);
    StaysDown(Step(s, Acknowledge(k)), run, k.dst);
  }

  // ---------- callbacks ----------

  /** A node told to follow leads no more and is in the term it was told, even a lower one; the rest of it
      stays. */
  lemma ToldToFollow(s: System, call: EC.Call)
    requires Enabled(s, Notify(call)) && call.FollowerCall?
    ensures Step(s, Notify(call)).logs ==
            s.logs[call.node := s.logs[call.node].(isLeader := false, currentTerm := call.term)]
  {
  }

  /** A node told to lead leads in that term and starts over with every peer: the next request goes from the
      end of its log on, and nothing is known to be replicated. */
  lemma ToldToLead(s: System, call: EC.Call, p: nat)
    requires Enabled(s, Notify(call)) && call.LeaderCall?
    ensures var n, n' := s.logs[call.node], Step(s, Notify(call)).logs[call.node];
            && n' == n.(isLeader := true, currentTerm := call.term,
                        nextIndex := n'.nextIndex, matchIndex := n'.matchIndex)
            && (p in n.peers ==>
                  && p in n'.nextIndex && n'.nextIndex[p] == |n.log|
                  && p in n'.matchIndex && n'.matchIndex[p] == -1)
            && (p !in n.peers ==> Lookup(n'.nextIndex, p) == Lookup(n.nextIndex, p)
                                  && Lookup(n'.matchIndex, p) == Lookup(n.matchIndex, p))
  {
    var n := s.logs[call.node];
    ResetAt(n.nextIndex, n.peers, |n.log|, p);
    ResetAt(n.matchIndex, n.peers, -1, p);
  }

  // ---------- the sections of one node are the steps of the ensemble ----------

  /** The critical section of node i that an action of the ensemble runs, if it runs one. */
  function SectionOf(a: Action, i: nat): Option<Section> {
    match a
    case Append(l) => if l.dst == i then Some(Received(l.req)) else None
    case ProposeAt(j, change, key, value) => if j == i then Some(Proposed(change, key, value)) else None
    case Acknowledge(k) => if k.dst == i then Some(Answered(k.resp)) else None
    case Confirm(j, _) => if j == i then Some(Settled) else None
    case Notify(call) =>
      if call.node != i then None
      else if call.LeaderCall? then Some(Elected(call.term)) else Some(Demoted(call.term))
    case _ => None
  }

  /** What may run on a node while one of its proposals has released the lock is what the ensemble lets run:
      every step either leaves a log module alone or runs one of its sections. */
  lemma StepsAreSections(s: System, a: Action, i: nat)
    requires Enabled(s, a) && Safe(s, a) && i in s.logs && Valid(s.logs[i])
    ensures var x := SectionOf(a, i);
            && i in Step(s, a).logs
            && (x.None? ==> Step(s, a).logs[i] == s.logs[i])
            && (x.Some? ==> CanRun(s.logs[i], x.value) && Step(s, a).logs[i] == Run(s.logs[i], x.value))
  {
    hide Step, HandleAppendEntries, HandleResponse, ApplyCommitted, BecomeLeader;
    match a
    case Notify(call) => NotifyStep(s, call);
    case ProposeAt(_, _, _, _) => ProposeStep(s, a);
    case SendAll(j) => SendStep(s, a, j);
    case Finish(r) => SendStep(s, a, r.node);
    case Append(l) => AppendStep(s, l);
    case Acknowledge(k) => AcknowledgeStep(s, k);
    case Confirm(j, e) => ConfirmStep(s, j, e);
    case _ => RestStep(s, a);
  }
}
