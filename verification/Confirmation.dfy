/** Across terms, whose entry does a successful wait report? */
module Confirmation {
  import opened Types
  import opened LogModel
  import opened Ensemble
  import LM = LogMatching

  /** The entry is, or once was, at its place in the log of its term's leader. */
  ghost predicate Recorded(canon: map<int, seq<LogEntry>>, e: LogEntry) {
    e.term in canon && 0 <= e.index < |canon[e.term]| && canon[e.term][e.index] == e
  }

  /** So are the entries of all proposals, whether they wait, have been confirmed, or have returned. */
  ghost predicate AllRecorded(s: System) {
    && (forall i, e :: i in s.open && e in s.open[i] ==> Recorded(s.canon, e))
    && (forall r :: r in s.finishing + s.receipts ==> Recorded(s.canon, r.entry))
  }

  lemma RecordedStays(canon: map<int, seq<LogEntry>>, e: LogEntry, log: seq<LogEntry>, last: LogEntry)
    requires Recorded(canon, e) && (last.term in canon ==> canon[last.term] == log)
    ensures Recorded(canon[last.term := log + [last]], e)
  {
  }

  /** At the helm, appending only extends the log on record for the term. */
  lemma ProposeRecords(s: System, a: Action)
    requires LM.Inv(s) && AllRecorded(s) && a.ProposeAt? && Enabled(s, a) && Guarded(s, a)
    ensures AllRecorded(Step(s, a))
  {
    hide LM.Inv, LM.Fits, Step, Recorded, LM.NodeWired;
    var n := s.logs[a.node];
    var last := NewEntry(n, a.change, a.key, a.value);
    ProposeStep(s, a);
    LM.NodeParts(s, a.node);
    assert last.term in s.canon ==> s.canon[last.term] == n.log;
    var canon' := s.canon[last.term := n.log + [last]];
    assert Recorded(canon', last) by { NewIsRecorded(s.canon, n.log, last); }
    forall e | Recorded(s.canon, e) ensures Recorded(canon', e) {
      RecordedStays(s.canon, e, n.log, last);
    }
  }

  lemma NewIsRecorded(canon: map<int, seq<LogEntry>>, log: seq<LogEntry>, e: LogEntry)
    requires e.index == |log|
    ensures Recorded(canon[e.term := log + [e]], e)
  {
  }

  /** No other step records or proposes anything new. */
  lemma NothingNew(s: System, s': System)
    requires AllRecorded(s) && s'.canon == s.canon
    requires forall i, e :: i in s'.open && e in s'.open[i] ==> i in s.open && e in s.open[i]
    requires forall r :: r in s'.finishing + s'.receipts ==>
               r in s.finishing + s.receipts || (r.node in s.open && r.entry in s.open[r.node])
    ensures AllRecorded(s')
  {
    hide Recorded;
  }

  lemma ConfirmRecords(s: System, i: nat, e: LogEntry)
    requires AllRecorded(s) && Enabled(s, Confirm(i, e)) && Safe(s, Confirm(i, e))
    ensures AllRecorded(Step(s, Confirm(i, e)))
  {
    hide AllRecorded, Step, ApplyCommitted;
    ConfirmStep(s, i, e);
    NothingNew(s, Step(s, Confirm(i, e)));
  }

  lemma StepRecords(s: System, a: Action)
    requires LM.Inv(s) && AllRecorded(s) && Enabled(s, a) && Guarded(s, a) && Safe(s, a)
    ensures AllRecorded(Step(s, a))
  {
    hide LM.Inv, AllRecorded, Step, HandleAppendEntries, HandleResponse;
    match a {
      case ProposeAt(_, _, _, _) => ProposeRecords(s, a);
      case Confirm(i, e) => ConfirmRecords(s, i, e);
      case Notify(call) => NotifyStep(s, call); NothingNew(s, Step(s, a));
      case SendAll(i) => SendStep(s, a, i); NothingNew(s, Step(s, a));
      case Finish(r) => SendStep(s, a, r.node); NothingNew(s, Step(s, a));
      case Append(l) => AppendStep(s, l); NothingNew(s, Step(s, a));
      case Acknowledge(k) => AcknowledgeStep(s, k); NothingNew(s, Step(s, a));
      case _ => RestStep(s, a); NothingNew(s, Step(s, a));
    }
  }

  lemma {:induction false} RunRecords(s: System, run: seq<Action>)
    requires LM.Inv(s) && AllRecorded(s) && Possible(s, run) && GuardedRun(s, run)
    ensures LM.Inv(Exec(s, run)) && AllRecorded(Exec(s, run))
    decreases |run|
  {
    hide LM.Inv, AllRecorded, Step, Enabled, Safe, Guarded;
    if run != [] {
      LM.StepKeeps(s, run[0]);
      StepRecords(s, run[0]);
      RunRecords(Step(s, run[0]), run[1..]);
    }
  }

  lemma ReachedRecords(s0: System, run: seq<Action>, s: System)
    requires LM.Reached(s0, run, s)
    ensures LM.Inv(s) && AllRecorded(s)
  {
    hide LM.Inv;
    LM.FreshIsSound(s0);
    RunRecords(s0, run);
  }

  /** Proposal e of node i: waiting, confirmed or returned. */
  ghost predicate Proposal(s: System, i: nat, e: LogEntry) {
    (i in s.open && e in s.open[i]) || Receipt(i, e) in s.finishing + s.receipts
  }

  predicate InPlace(log: seq<LogEntry>, e: LogEntry) {
    0 <= e.index < |log| && log[e.index] == e
  }

  /** The test that the waiting loop omits: the entry now at this index is of the term it was proposed in. */
  predicate SameTermThere(log: seq<LogEntry>, e: LogEntry) {
    0 <= e.index < |log| && log[e.index].term == e.term
  }

  lemma RecordedInPlaceIff(log: seq<LogEntry>, canon: map<int, seq<LogEntry>>, e: LogEntry)
    requires LM.Fits(log, canon) && Recorded(canon, e)
    ensures InPlace(log, e) <==> SameTermThere(log, e)
  {
    if SameTermThere(log, e) {
      assert LM.FitsAt(log, canon, e.index);
      assert log[e.index] == log[..e.index + 1][e.index] == canon[e.term][..e.index + 1][e.index];
    }
  }

  /** In every guarded run, and on every node: a proposed entry is where it was put if and only if the entry
      there is of its term. */
  lemma ProposalInPlaceIff(s0: System, run: seq<Action>, s: System, i: nat, e: LogEntry, j: nat)
    requires LM.Reached(s0, run, s) && Proposal(s, i, e) && j in s.logs
    ensures InPlace(s.logs[j].log, e) <==> SameTermThere(s.logs[j].log, e)
  {
    hide *;
    ReachedRecords(s0, run, s);
    ProposalIsRecorded(s, i, e);
    LM.NodeParts(s, j);
    RecordedInPlaceIff(s.logs[j].log, s.canon, e);
  }

  lemma ProposalIsRecorded(s: System, i: nat, e: LogEntry)
    requires AllRecorded(s) && Proposal(s, i, e)
    ensures Recorded(s.canon, e)
  {
    hide Recorded;
  }

  /** A proposal is told that it succeeded when the commit index has reached its index. At that moment its own
      entry is in its node's log, committed and applied, if and only if the entry at that index is of the
      proposal's term. */
  lemma ConfirmReportsOwnIff(s0: System, run: seq<Action>, s: System, i: nat, e: LogEntry)
    requires LM.Reached(s0, run, s) && Enabled(s, Confirm(i, e)) && Safe(s, Confirm(i, e))
    ensures var n := Step(s, Confirm(i, e)).logs[i];
            && e.index <= n.commitIndex <= n.lastApplied && n.log == s.logs[i].log
            && (InPlace(n.log, e) <==> SameTermThere(s.logs[i].log, e))
  {
    hide LM.Reached, Step, ApplyCommitted;
    ProposalInPlaceIff(s0, run, s, i, e, i);
    ConfirmStep(s, i, e);
    ApplyCommittedFolds(s.logs[i]);
  }
}
