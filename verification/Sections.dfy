/** A proposal holds the lock of its node only now and then. What other goroutines may do to the node in
    between: any of its other critical sections, in any number and order. */
module Sections {
  import opened Types
  import opened LogModel

  /** A request arrives; another proposal appends, handles an answer, or applies what is committed; a
      callback changes the node's role. Broadcasts read the node only and need no section. */
  datatype Section =
    | Received(req: AppendRequest)
    | Proposed(change: ChangeType, key: string, value: string)
    | Answered(resp: AppendResponse)
    | Settled
    | Elected(leadTerm: int)
    | Demoted(followTerm: int)

  /** Otherwise the program fails. */
  ghost predicate CanRun(s: LogState, x: Section) {
    match x
    case Received(req) => req.prevLogIndex >= -1
    case Answered(resp) => resp.matchIndex >= -1
    case Settled => CanApply(s)
    case _ => true
  }

  function Run(s: LogState, x: Section): (r: LogState)
    requires Valid(s) && CanRun(s, x)
    ensures Valid(r) && r.id == s.id && r.peers == s.peers
  {
    match x
    case Received(req) => HandleKeepsValid(s, req); HandleAppendEntries(s, req).state
    case Proposed(change, key, value) => if s.isLeader then Append(s, NewEntry(s, change, key, value)) else s
    case Answered(resp) => HandleResponseKeeps(s, resp); HandleResponse(s, resp).state
    case Settled => ApplyCommittedFolds(s); ApplyCommitted(s)
    case Elected(term) => BecomeLeaderKeepsValid(s, term); BecomeLeader(s, term)
    case Demoted(term) => BecomeFollower(s, term)
  }

  ghost predicate CanMeanwhile(s: LogState, xs: seq<Section>)
    requires Valid(s)
    decreases |xs|
  {
    xs == [] || (CanRun(s, xs[0]) && CanMeanwhile(Run(s, xs[0]), xs[1..]))
  }

  function Meanwhile(s: LogState, xs: seq<Section>): (r: LogState)
    requires Valid(s) && CanMeanwhile(s, xs)
    ensures Valid(r) && r.id == s.id && r.peers == s.peers
    decreases |xs|
  {
    if xs == [] then s else Meanwhile(Run(s, xs[0]), xs[1..])
  }

  /** No request of another leader is among them. */
  predicate Local(xs: seq<Section>) {
    forall k :: 0 <= k < |xs| ==> !xs[k].Received?
  }

  /** The commit index has reached the target, and a quorum of recorded match indices counts for it in the
      node's current term. */
  ghost predicate Quorate(s: LogState, target: int) {
    target <= s.commitIndex < |s.log| && 0 <= s.commitIndex && Committable(s, s.commitIndex)
  }

  ghost predicate TableIsFold(s: LogState) {
    -1 <= s.lastApplied < |s.log| && s.table == Fold(s.log[..s.lastApplied + 1])
  }

  /** What a node keeps as long as no request of another leader is handled. */
  ghost predicate Grows(s: LogState, s': LogState) {
    && s.log <= s'.log && s.commitIndex <= s'.commitIndex && s'.peers == s.peers
    && (s.commitIndex < |s.log| ==> s'.commitIndex < |s'.log|)
    && (s.commitIndex < |s.log| && TableIsFold(s) ==> TableIsFold(s'))
  }

  lemma AppliedGrows(s: LogState)
    requires Valid(s) && CanApply(s)
    ensures Grows(s, ApplyCommitted(s))
  {
    ApplyCommittedFolds(s);
  }

  lemma GrowsTrans(a: LogState, b: LogState, c: LogState)
    requires Grows(a, b) && Grows(b, c)
    ensures Grows(a, c)
  {
  }

  lemma FoldKept(s: LogState, s': LogState)
    requires s.log <= s'.log && s'.lastApplied == s.lastApplied && s'.table == s.table && TableIsFold(s)
    ensures TableIsFold(s')
  {
    assert s'.log[..s.lastApplied + 1] == s.log[..s.lastApplied + 1];
  }

  lemma SameLogGrows(s: LogState, s': LogState)
    requires s.log <= s'.log && s'.lastApplied == s.lastApplied && s'.table == s.table && s'.peers == s.peers
    requires s.commitIndex <= s'.commitIndex && (s.commitIndex < |s.log| ==> s'.commitIndex < |s'.log|)
    ensures Grows(s, s')
  {
    if TableIsFold(s) { FoldKept(s, s'); }
  }

  lemma LocalGrows(s: LogState, x: Section)
    requires Valid(s) && CanRun(s, x) && !x.Received?
    ensures Grows(s, Run(s, x))
    ensures Run(s, x).commitIndex > s.commitIndex ==>
              x.Answered? && Quorate(Run(s, x), Run(s, x).commitIndex)
  {
    match x
    case Answered(resp) =>
      HandleResponseKeeps(s, resp);
      AdvanceIsCounted(s, resp);
      SameLogGrows(s, Run(s, x));
    case Settled =>
      AppliedGrows(s);
      ApplyCommittedFolds(s);
    case Proposed(_, _, _) => SameLogGrows(s, Run(s, x));
    case Elected(_) => SameLogGrows(s, Run(s, x));
    case Demoted(_) => SameLogGrows(s, Run(s, x));
  }

  /** At some moment of these sections an answer had just been handled and a quorum was counted. */
  ghost predicate Counts(s: LogState, xs: seq<Section>, target: int)
    requires Valid(s) && CanMeanwhile(s, xs)
    decreases |xs|
  {
    xs != [] && ((xs[0].Answered? && Quorate(Run(s, xs[0]), target)) || Counts(Run(s, xs[0]), xs[1..], target))
  }

  /** Without requests of other leaders the log only grows, and the commit index passes a target only when a
      quorum has been counted. */
  lemma {:induction false} MeanwhileGrows(s: LogState, xs: seq<Section>, target: int)
    requires Valid(s) && CanMeanwhile(s, xs) && Local(xs)
    ensures Grows(s, Meanwhile(s, xs))
    ensures s.commitIndex < target <= Meanwhile(s, xs).commitIndex ==> Counts(s, xs, target)
    decreases |xs|
  {
    hide Valid, Run, CanRun;
    if xs == [] {
      SameLogGrows(s, s);
    } else {
      var s1 := Run(s, xs[0]);
      LocalGrows(s, xs[0]);
      MeanwhileGrows(s1, xs[1..], target);
      hide Grows;
      GrowsTrans(s, s1, Meanwhile(s1, xs[1..]));
    }
  }
}
