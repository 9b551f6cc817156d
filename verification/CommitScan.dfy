/** The leader's downward commit scan, against the rule it stands for: the commit index becomes the
    majority-th largest replicated index, provided that entry is of the current term. */
module CommitScan {
  import opened Types
  import opened Quorum
  import opened Ordering
  import opened LogModel

  /** How far each member of the cluster is known to be, the leader first; nobody counts
      beyond the leader's own last index. */
  function Progress(s: LogState): (r: seq<int>)
    ensures |r| == |s.peers| + 1
  {
    var last := |s.log| - 1;
    [last] + seq(|s.peers|, i requires 0 <= i < |s.peers| => Min(Lookup(s.matchIndex, s.peers[i]), last))
  }

  /** The largest index that a quorum is known to have reached. */
  function QuorumIndex(s: LogState): int {
    KthLargest(Progress(s), Majority(|s.peers| + 1))
  }

  lemma {:induction false} CountAgrees(a: seq<int>, b: seq<int>, n: int)
    requires |a| == |b|
    requires forall i :: 0 <= i < |a| ==> (a[i] >= n <==> b[i] >= n)
    ensures CountAtLeast(a, n) == CountAtLeast(b, n)
  {
    if a != [] {
      CountAgrees(a[1..], b[1..], n);
    }
  }

  /** Being replicated on a quorum is the same as lying at or below the quorum index, so the
      replica count is antitone in the index. */
  lemma QuorumReached(s: LogState, n: int)
    requires n < |s.log|
    ensures Replicas(s, n) >= Majority(|s.peers| + 1) <==> n <= QuorumIndex(s)
  {
    var list := MatchList(s.peers, s.matchIndex);
    var last := |s.log| - 1;
    assert Progress(s)[1..] ==
           seq(|s.peers|, i requires 0 <= i < |s.peers| => Min(Lookup(s.matchIndex, s.peers[i]), last));
    CountAgrees(list, Progress(s)[1..], n);
    KthLargestCounts(Progress(s), Majority(|s.peers| + 1), n);
  }

  lemma QuorumIndexInLog(s: LogState)
    ensures QuorumIndex(s) < |s.log|
  {
    var p := Progress(s);
    forall i | 0 <= i < |p| ensures p[i] <= |s.log| - 1 {}
    var k := Majority(|s.peers| + 1);
    KthLargestCounts(p, k, |s.log|);
    CountNone(p, |s.log|);
  }

  ghost predicate CurrentAt(s: LogState, n: int) {
    0 <= n < |s.log| && s.log[n].term == s.currentTerm
  }

  /** In every state, the scan finds the last current-term entry in reach of a quorum. */
  lemma {:induction false} ScanFindsLast(s: LogState, n: int)
    requires s.commitIndex >= -1 && n < |s.log|
    ensures var c := ScanCommit(s, n);
            && (c == s.commitIndex || (s.commitIndex < c <= QuorumIndex(s) && CurrentAt(s, c)))
            && forall k :: s.commitIndex < k && c < k <= n && k <= QuorumIndex(s) ==> !CurrentAt(s, k)
    decreases n - s.commitIndex
  {
    if n > s.commitIndex {
      QuorumReached(s, n);
      if !Committable(s, n) {
        ScanFindsLast(s, n - 1);
      }
    }
  }

  /** The order-statistic rule. */
  ghost function RuleCommit(s: LogState): int {
    if QuorumIndex(s) > s.commitIndex && CurrentAt(s, QuorumIndex(s)) then QuorumIndex(s) else s.commitIndex
  }

  /** The scan and the rule agree exactly when the quorum index holds a current-term entry or no entry
      between the old commit index and the quorum index does. */
  lemma ScanIsRuleIff(s: LogState)
    requires s.commitIndex >= -1
    ensures TryAdvance(s).commitIndex == RuleCommit(s) <==>
            (CurrentAt(s, QuorumIndex(s)) || forall k :: s.commitIndex < k < QuorumIndex(s) ==> !CurrentAt(s, k))
  {
    ScanFindsLast(s, |s.log| - 1);
    QuorumIndexInLog(s);
  }

  ghost predicate CurrentTermIsSuffix(s: LogState) {
    forall i, j :: 0 <= i <= j < |s.log| && s.log[i].term == s.currentTerm ==> s.log[j].term == s.currentTerm
  }

  /** In particular they agree on every log whose current-term entries form a suffix. */
  lemma ScanIsRule(s: LogState)
    requires s.commitIndex >= -1 && CurrentTermIsSuffix(s)
    ensures TryAdvance(s) == s.(commitIndex := RuleCommit(s))
  {
    QuorumIndexInLog(s);
    ScanIsRuleIff(s);
    if exists k :: s.commitIndex < k < QuorumIndex(s) && CurrentAt(s, k) {
      var k :| s.commitIndex < k < QuorumIndex(s) && CurrentAt(s, k);
      assert s.log[QuorumIndex(s)].term == s.currentTerm;
    }
  }

  /** After an answer that reports success, not of a higher term: the answer is recorded, the next request
      starts after it, and the commit index is the last current-term entry that a quorum of the recorded
      indices now reaches, or stays where it was if there is none above it. */
  lemma SuccessIsRecorded(s: LogState, resp: AppendResponse)
    requires Valid(s) && resp.matchIndex >= -1 && resp.success && resp.term <= s.currentTerm
    ensures var s' := HandleResponse(s, resp).state;
            && s'.matchIndex == s.matchIndex[resp.followerID := resp.matchIndex]
            && s'.nextIndex == s.nextIndex[resp.followerID := resp.matchIndex + 1]
            && s' == s.(matchIndex := s'.matchIndex, nextIndex := s'.nextIndex, commitIndex := s'.commitIndex)
            && (s'.commitIndex == s.commitIndex
                || (s.commitIndex < s'.commitIndex <= QuorumIndex(s') && CurrentAt(s', s'.commitIndex)))
            && forall k :: s'.commitIndex < k <= QuorumIndex(s') ==> !CurrentAt(s', k)
  {
    var s1 := s.(matchIndex := s.matchIndex[resp.followerID := resp.matchIndex],
                 nextIndex := s.nextIndex[resp.followerID := resp.matchIndex + 1]);
    ScanFindsLast(s1, |s.log| - 1);
    QuorumIndexInLog(s1);
    var s' := HandleResponse(s, resp).state;
    assert s' == s1.(commitIndex := s'.commitIndex);
    assert Progress(s') == Progress(s1) && QuorumIndex(s') == QuorumIndex(s1);
    forall k | s'.commitIndex < k <= QuorumIndex(s') ensures !CurrentAt(s', k) {
      assert !CurrentAt(s1, k);
    }
  }
}
