# A verified model of the chat coordinator

The coordinator ensemble runs three protocols on every node: Raft leader election
(`internal/election`), Raft log replication (`internal/consensus`) and a token ring for mutual
exclusion (`internal/lock`), wired together in `internal/coordinator`. This project models all three,
for any number of nodes, and proves what they keep over whole runs.

Every handler and every critical section of the program is one atomic step. Each node type is modelled
twice: as a class whose methods update its fields as the program does, and as functions on an immutable
view of those fields; the handlers' `ensures` equate their whole new state and output with those
functions. The cluster state machines are built from the functions. A proposal releases its node's lock
several times, so `ProposeEntry` and `WaitForMajority` take as a parameter (`Proposal.Course`) which other
critical sections of the node (`Sections.Section`) run at each of those points; in the ensemble of all
nodes every critical section is an action of its own.

| module (file) | what it holds |
|---|---|
| `LogModel`, `Sections`, `Proposal`, `Sending`, `RaftLogNode` | the replicated log: handlers as functions, what runs while the lock is free, a whole proposal and what it sends, the class |
| `CommitScan`, `Follower`, `LogFacts`, `Routing` | one node or one leader with one follower: commit rule, redelivery, clamp, backtracking, the table |
| `ElectionModel`, `ElectionObject`, `ElectionCluster`, `ElectionSafety`, `Leadership`, `ElectionDuties` | election node, cluster, and theorems about its runs |
| `Ensemble`, `LogDuties`, `LogMatching`, `Confirmation` | election and logs of all nodes as one machine; Log Matching across all terms; whose entry a successful wait reports |
| `EpochLog`, `Epoch`, `EpochStart`, `Commitment` | one leader's term: commitment, acknowledgements, state machine safety |
| `Counterexamples`, `CommitRuns`, `StaleAnswer` | runs of three fresh nodes in which documented properties fail |
| `RingModel`, `TokenRing`, `RingCluster`, `RingSafety`, `RingLaws`, `RingProgress` | the token ring: node, class, cluster, invariant, theorems, progress |
| `Coordinator` | the node that wires the three; the ring every node builds; initial clusters |
| `Types`, `Quorum`, `Ordering` | values, majorities, sorting |

A run is a list of actions, each enabled when its turn comes (`Possible`), leading to `Exec`. Election
and log messages may be lost, delayed and reordered, never duplicated, since the transport makes a
single attempt per message (internal/transport/transport.go:130-153). Nodes may stop taking part at
any time. Callbacks started with `go` are pending calls that run at any later moment, in any order.
The cluster states also carry a record of what has happened (`history`, `canon`, `led`, `past`); no
action looks at it, except that a request's ticket stands for its response channel.

## Hypotheses, stated in the theorems that use them

- **Guard** (`Ensemble.Guarded`, `AtHelm`). `ProposeEntry` checks only `isLeader`
  (internal/consensus/consensus.go:128), and `HandleAppendEntries` raises `currentTerm` without
  clearing it (internal/consensus/consensus.go:379). Log Matching therefore assumes that leader-side
  appends and sends happen only while `isLeader` holds and `currentTerm` is the term of the node's
  latest `BecomeLeader`. `OwnsItsTermIff` shows that this is exactly when the node has won the term it
  writes into its entries; `StaleLeaderBreaksLogMatching` is a run of the unguarded program in which
  Log Matching fails.
- **Epoch** (`Epoch.Starts`, `Epoch.Allowed`). Commitment and state machine safety are proved for a
  stretch in which one leader of term t is the only node taking leader-side steps, and which starts right
  after its `BecomeLeader` with no request in flight, every node's committed prefix a prefix of its log,
  logs matching, terms below t, and tables equal to the fold of what was applied. Answers of earlier terms
  may be on their way to the leader, but it must not handle one that reports success: the program never
  compares the term of such an answer with its own (internal/consensus/consensus.go:254-275). With that
  test (`Epoch.CurrentAnswer`) every epoch theorem holds; `StaleAnswerCommits` starts an epoch and handles one
  such answer, and a proposal returns true for an entry that only its own node holds.
  `EpochBegins` shows that, wherever a guarded run has led, the winner's callback starts an epoch if no term
  has reached t, committed prefixes are in its log and the messages named are absent or old
  (`EpochStart.Quiet`); matching logs, valid nodes and the configuration come with the run. `EpochExists`
  reaches an epoch from three fresh nodes.
- **Safe steps** (`Ensemble.Safe`). A step that would index a log out of range ends the program, so it is
  not part of a run. In guarded runs only one can: applying what is committed when the log has been cut
  below the commit index in between (`OnlyApplyingCanFail`). That does happen: `ApplyingFails` is a guarded
  run up to such a step. In an epoch it does not (`EpochNeverFails`).

## Where the code and its documentation disagree

- internal/consensus/consensus.go:28-34 promises Leader Completeness and State Machine Safety. Votes
  carry no log information (internal/election/election.go:170), so neither holds across elections:
  `CommittedEntryLost` is a run, within the guard, in which two proposals of different terms return
  true for different entries at one index and two nodes apply them. `CommittedPrefixSurvivesIff` says
  exactly when a new leader preserves what a follower had committed.
- A follower's commit index can go back: `CommitIndexGoesBack` is a guarded run that puts such a request
  in flight. `CommitDecreasesIff` is the exact condition on follower and request. Only a sender whose own
  commit index lies beyond its log can cause it (`SenderLowersIff`), and a sender whose commit index lies
  inside its log never does (`SoundSenderNeverLowers`). Commit indices get beyond a log because truncation
  leaves them alone; `Overdrawn` is a guarded run to a leader in that state.
- A wait succeeds as soon as the commit index has reached its target (internal/consensus/consensus.go:231),
  whoever raised it. In `ConfirmedButGone`, a guarded run, a later leader's request replaces the entry and
  raises the commit index while the lock is free: success is reported for an entry that is in no log.
  `ConfirmReportsOwnIff` gives the missing test: in every guarded run the confirmed entry is in its node's
  log if and only if the entry at its index is of its term.
- True is documented to mean that a majority has replicated the entry
  (internal/consensus/consensus.go:124). What the program has is a count of recorded match indices, and that
  fails twice. The indices may be untrue: in `StaleAnswerCommits` the leader counts an acknowledgement of an
  earlier term. The missing test is that the answer is of the leader's term; with it, and one leader at
  work, true means held by a majority (`ProposeTrueMeansCommitted`). And there may be no count at all: in
  `ConfirmedAlone` the new leader's commit index lies beyond its log, so that any answer will do.
- What one node can say by itself: as long as it handles no other leader's request while the call is under
  way, and whatever else it does, success means the entry is in place and a quorum of recorded match
  indices was counted, provided the commit index was inside the log (`ProposeSucceeds`). For a new leader
  that proviso is exact (`SuccessIsCountedIff`).
- The minimum in the follower's commit rule is documented as taken with the last new entry
  (internal/consensus/consensus.go:444-445) but computed with the end of the log;
  `ClampDiffersFromFigure2` is a guarded run to a request on which they differ, `ClampIsFigure2Iff` says
  when they agree, and `ClampIsFigure2InEpoch` that in an epoch they do.
- internal/lock/lock.go:26-30 calls the ring starvation-free. A release re-grants locally before it
  passes the token on, so a node whose callers keep coming back keeps the token
  (`StarvationIsPossible`); `WaitIsBounded` bounds every wait by the requests that arrive meanwhile.

## Model

| member | source | states |
|---|---|---|
| LogMatching.LogMatching | internal/consensus/consensus.go:29-30 | in every guarded run, whatever is lost, reordered or delayed and however late callbacks run, two logs with an entry of one index and term agree up to and including it, and every entry's index is its position |
| LogMatching.OwnsItsTermIff | internal/consensus/consensus.go:125-142 | a node passing the leader check has won the term it would write if and only if it is at the helm |
| LogMatching.HandledLogFits | internal/consensus/consensus.go:381-437 | on each outcome of a request that fits the leaders' logs, the follower's log still fits them: append, skip, truncate and reject |
| LogMatching.BuiltRequestFits | internal/consensus/consensus.go:180-214 | previous entry and entries of every request built come from one log that fits the leaders' logs |
| LogMatching.SameTermSameLeader | internal/coordinator/coordinator.go:62-74 | two nodes told to lead the same term are one node |
| LogMatching.OnlyApplyingCanFail | internal/consensus/consensus.go:322-328 | after every guarded run, a guarded step indexes a log out of range exactly when it is the check of a wait that applies up to a commit index beyond the log |
| Confirmation.ConfirmReportsOwnIff | internal/consensus/consensus.go:230-240 | in every guarded run, when a wait is confirmed its index is committed and applied, and its own entry is at that index if and only if the entry there is of the proposal's term |
| Confirmation.ProposalInPlaceIff | internal/consensus/consensus.go:125-166 | in every guarded run and on every node, the entry of any proposal, waiting, confirmed or returned, is at its index if and only if the entry there is of its term |
| Commitment.CommitIsDurable | internal/consensus/consensus.go:293-318 | once the leader's commit index has moved to n, a majority holds its log through n, and the same nodes still hold it at every later point of the epoch |
| Commitment.AcknowledgementsAreTrue | internal/consensus/consensus.go:461-467 | an acknowledgement of the leader's term in flight, and every recorded match index, name a true common prefix with the leader, although followers report the end of their whole log |
| Commitment.ProposeTrueMeansCommitted | internal/consensus/consensus.go:121-166 | with one leader at work and only acknowledgements of its term handled, a proposal that returned true has its own entry in the leader's log, committed, applied to the leader's table, and held by a majority |
| Commitment.CommonPrefixNeverShrinks | internal/consensus/consensus.go:381-437 | what a node shares with the leader only grows, in any order of old and new requests; its committed entries stay and its commit index does not go back |
| Commitment.StateMachineSafety | internal/consensus/consensus.go:322-347 | all tables, at any two points of an epoch, are folds of prefixes of one log; equally many applied entries give equal tables |
| Commitment.EpochNeverFails | internal/consensus/consensus.go:322-328 | no step of an epoch indexes out of range, and applied, committed and log length stay ordered on every node |
| Commitment.ScanIsRuleInEpoch | internal/consensus/consensus.go:293-318 | the leader's commit scan is the order-statistic rule throughout an epoch |
| Commitment.ClampIsFigure2InEpoch | internal/consensus/consensus.go:444-459 | every request in flight carries its commit index, so the follower's clamp moves the commit index where Figure 2 says |
| EpochStart.EpochBegins | internal/consensus/consensus.go:93-110 | wherever a guarded run has led, the winner's BecomeLeader in a quiet system, with answers of earlier terms still on their way, meets every epoch hypothesis |
| EpochStart.EpochExists | internal/coordinator/coordinator.go:62-74 | an epoch is reached from three fresh nodes within the guard |
| EpochLog.FollowerStep | internal/consensus/consensus.go:359-474 | one request of the leader, whenever it arrives, keeps a follower aligned, loses nothing shared, never lowers commit or applied index, and answers with a true length |
| EpochLog.TailIsLeaders | internal/consensus/consensus.go:416-437 | a follower log that already contains a request reaching into the leader's term has no tail the leader lacks |
| Epoch.StepKeeps | internal/consensus/consensus.go:359-474 | every step of an epoch can be taken, keeps the epoch invariant and only moves nodes forward |
| Epoch.QuorumHolds | internal/consensus/consensus.go:293-318 | a quorum of recorded match indices means a majority of nodes that hold the log that far |
| Counterexamples.CommittedEntryLost | internal/consensus/consensus.go:31-34 | a guarded run from fresh nodes in which two proposals return true for different entries at one index and two tables diverge |
| Counterexamples.StaleLeaderBreaksLogMatching | internal/consensus/consensus.go:379 | a run from fresh nodes, without the guard, that ends with two logs that do not match |
| CommitRuns.ConfirmedButGone | internal/consensus/consensus.go:225-240 | a guarded run from fresh nodes in which a wait succeeds for an entry that is in no log, every commit index lying inside its log |
| CommitRuns.ConfirmedAlone | internal/consensus/consensus.go:225-240 | a guarded run in which a wait succeeds for an entry that only its own node holds |
| StaleAnswer.StaleAnswerCommits | internal/consensus/consensus.go:254-275 | a guarded run from the start of an epoch, every step of which is one of the epoch but for a success answer of an earlier term, at whose end a proposal has returned true for an entry that only its own node holds |
| CommitRuns.ApplyingFails | internal/consensus/consensus.go:322-328 | a guarded run to a wait whose next step applies past the end of the log |
| CommitRuns.Overdrawn | internal/consensus/consensus.go:416-427 | a guarded run to a leader at the helm whose commit index lies beyond its log |
| CommitRuns.CommitIndexGoesBack | internal/consensus/consensus.go:446-459 | a guarded run that puts a request in flight which lowers its receiver's commit index |
| CommitRuns.ClampDiffersFromFigure2 | internal/consensus/consensus.go:444-459 | a guarded run that puts a request in flight which its receiver clamps to more than Figure 2 does |
| CommitScan.ScanFindsLast | internal/consensus/consensus.go:293-318 | in every state the scan finds the last current-term entry within reach of a quorum, or keeps the commit index |
| CommitScan.ScanIsRuleIff | internal/consensus/consensus.go:293-318 | the scan equals the majority-th largest rule exactly when that index holds a current-term entry or no entry between does |
| CommitScan.ScanIsRule | internal/consensus/consensus.go:293-318 | on logs whose current-term entries form a suffix the scan is the order-statistic rule |
| CommitScan.QuorumReached | internal/consensus/consensus.go:299-309 | an index is counted on a quorum if and only if it is at most the majority-th largest replicated index |
| Follower.RedeliveryHarmless | internal/consensus/consensus.go:359-474 | handling one request twice in a row gives the state and the reply of handling it once, in every valid state and on every outcome |
| Follower.SynchroniseCounts | internal/consensus/consensus.go:276-287 | backtracking takes exactly max(0, nextIndex - common prefix) rejections, then the follower's log starts with the leader's whole log |
| Follower.OneExchange | internal/consensus/consensus.go:381-437 | a request is accepted if and only if its next index lies within the common prefix; a rejection cuts only beyond that prefix |
| Follower.HandleShape | internal/consensus/consensus.go:359-474 | when a request is accepted, and for each outcome the log, the term and the whole reply |
| Follower.CommittedPrefixSurvivesIff | internal/consensus/consensus.go:31-32 | a new leader's synchronisation preserves a follower's committed prefix if and only if the leader held it |
| Follower.BuiltRequestCovers | internal/consensus/consensus.go:180-204 | a sender whose commit index is inside its log announces no more than it carries |
| Follower.UnknownGetsAll | internal/consensus/consensus.go:180-195 | a node of which nothing is recorded is sent the whole log |
| Follower.ClampIsFigure2Iff | internal/consensus/consensus.go:444-459 | the clamp to the log's end equals Figure 2's minimum exactly when the request covers its commit index, the follower's log does not reach past the last new entry, or a carried entry conflicts with it |
| Follower.CommitDecreasesIff | internal/consensus/consensus.go:446-459 | handling a request lowers the commit index exactly when it is accepted, ends below that index, announces a higher one, and the log ends below it too or conflicts with a carried entry |
| Follower.SoundSenderNeverLowers | internal/consensus/consensus.go:180-204 | a request of a sender whose commit index is inside its log never lowers a follower's |
| Follower.SenderLowersIff | internal/consensus/consensus.go:180-204 | a sender's request can lower some follower's commit index if and only if it announces two or more past its last entry, and then the sender's commit index lies beyond its log |
| Follower.MergeLength | internal/consensus/consensus.go:416-437 | where the merged log ends, from the log and the entries alone |
| Proposal.ProposeSucceeds | internal/consensus/consensus.go:125-166 | success of a call, if the commit index was inside the log and no other leader's request was handled meanwhile: the entry is in place at or below the commit index, and at some moment of the call the scan counted a quorum of recorded match indices for it or one above |
| Proposal.SuccessIsApplied | internal/consensus/consensus.go:231-232 | whatever ran meanwhile, a successful wait ends with everything up to its index committed and applied |
| Proposal.ProposeAlone | internal/consensus/consensus.go:217-251 | if nothing else ran meanwhile: the log grew by the entry, which is committed, applied, and counted by the scan on a quorum of recorded match indices |
| Proposal.SuccessIsCountedIff | internal/consensus/consensus.go:293-318 | for a new leader in any valid state, every successful call without another leader's request has counted a quorum of recorded match indices if and only if the commit index lies inside the log |
| Proposal.AnyAnswerWillDo | internal/consensus/consensus.go:225-240 | a leader whose commit index lies beyond its log succeeds on a refusal, and if it has recorded no answer yet counts no quorum |
| Proposal.AwaitCounts | internal/consensus/consensus.go:217-251 | a wait that succeeds ends with the target applied; without another leader's request the log only grew, and the scan counted a quorum of recorded match indices if the target was not committed before |
| Sending.ProposalSends | internal/consensus/consensus.go:125-176 | what a leader's proposal sends, read from the messages: to every peer what its log holds from that peer's next index on, one retry per refusal handled, and after success the same again with the final log and commit index; nothing else, and nothing at all if it does not lead |
| Sending.NewEntryIsSent | internal/consensus/consensus.go:152-154 | every peer not known to be past it is sent the new entry, last in the request and under the leader's term if nothing ran before the broadcast |
| Sending.CommitIsAnnounced | internal/consensus/consensus.go:159-163 | after a success every peer is told a commit index that covers the new entry, as long as no other leader's request was handled and the commit index was inside the log |
| Sending.RefusalIsRetried | internal/consensus/consensus.go:276-287 | a refusal, not of a higher term, and only that, is retried: to the same follower, from one entry earlier unless it started at the first |
| CommitScan.SuccessIsRecorded | internal/consensus/consensus.go:267-275 | a success is recorded, the next request starts after it, and the commit index is the last current-term entry that a quorum of recorded indices now reaches |
| LogDuties.AnswerRaisesTerm | internal/consensus/consensus.go:258-265 | an answer of a higher term ends leadership, raises the term to its own and does nothing else; any answer leaves the term at least its own |
| LogDuties.OvertakenLeaderProposesNothing | internal/consensus/consensus.go:125-133 | in every further run in which an overtaken leader is not told that it has won again, it does not lead and cannot propose |
| LogDuties.ToldToLead | internal/consensus/consensus.go:93-110 | a node told to lead starts over with every peer: next index at the end of its log, nothing known to be replicated |
| LogDuties.ToldToFollow | internal/consensus/consensus.go:113-119 | a node told to follow leads no more and is in the term it was told, even a lower one |
| LogDuties.FreshLogs | internal/consensus/consensus.go:71-86 | what every log module begins with |
| LogDuties.StepsAreSections | internal/consensus/consensus.go:93-474 | every step of the ensemble leaves a log module alone or runs one of the sections that a proposal reckons with |
| Sections.MeanwhileGrows | internal/consensus/consensus.go:93-290 | whatever a node does without handling another leader's request, its log and commit index only grow, its table stays the fold, and its commit index passes an index only when the scan counted a quorum of recorded match indices |
| Routing.LastWriteWins | internal/consensus/consensus.go:331-347 | a key is in the table exactly when an applied entry added it, with the value of the last one that did |
| LogModel.ApplyCommittedFolds | internal/consensus/consensus.go:322-328 | applying reaches the commit index, changes nothing else, and keeps the table the fold of the applied prefix |
| LogFacts.MergeTail | internal/consensus/consensus.go:413-437 | merging the rest of a matching log either finds it all present and changes nothing, or yields exactly that log |
| RaftLogNode.RaftLog.constructor | internal/consensus/consensus.go:71-86 | a fresh log module |
| RaftLogNode.RaftLog.BecomeLeader | internal/consensus/consensus.go:93-110 | whole new state; every peer's next and match index is reset |
| RaftLogNode.RaftLog.BecomeFollower | internal/consensus/consensus.go:113-119 | whole new state; the term may go down |
| RaftLogNode.RaftLog.SendAppendEntriesTo | internal/consensus/consensus.go:180-214 | the request built for a follower |
| RaftLogNode.RaftLog.SendAppendEntriesToAll | internal/consensus/consensus.go:169-176 | one request per peer, in order |
| RaftLogNode.RaftLog.CountReplicas | internal/consensus/consensus.go:298-304 | the counting loop computes the leader plus the peers recorded at or above n |
| RaftLogNode.RaftLog.TryAdvanceCommitIndex | internal/consensus/consensus.go:293-318 | the downward loop is the scan, and only the commit index changes |
| RaftLogNode.RaftLog.ApplyCommitted | internal/consensus/consensus.go:322-328 | the loop applies every entry up to the commit index |
| RaftLogNode.RaftLog.ApplyEntry | internal/consensus/consensus.go:331-347 | the two change types update the table, others do not |
| RaftLogNode.RaftLog.HandleAppendEntriesResponse | internal/consensus/consensus.go:254-290 | whole new state and the retry sent, for step-down, success and rejection |
| RaftLogNode.RaftLog.WaitForMajority | internal/consensus/consensus.go:217-251 | the waiting loop over the answers that arrive in time, with any other sections of the node before each answer and between handling it and the check: state, result, and everything sent |
| RaftLogNode.RaftLog.ProposeEntry | internal/consensus/consensus.go:125-166 | a whole proposal, with any other sections wherever it releases the lock: state, result and everything sent |
| RaftLogNode.RaftLog.Stop | internal/consensus/consensus.go:504-510 | the stop channel is closed, at most once |
| RaftLogNode.RaftLog.HandleAppendEntries | internal/consensus/consensus.go:359-474 | whole new state and reply on all outcomes |
| RaftLogNode.RaftLog.MergeEntries | internal/consensus/consensus.go:416-437 | the conflict loop computes the merge |
| ElectionSafety.ElectionSafety | internal/election/election.go:192-239 | at most one node ever wins a term, in every run with loss, delay, reordering and crashes |
| ElectionSafety.OneLeaderAtATime | internal/election/election.go:228-239 | no two nodes are in the leader role of one term |
| ElectionSafety.WinnerIsUnique | internal/election/election.go:214-224 | two winners of a term coincide: their counted voters are majorities of distinct voters who vote once per term |
| ElectionSafety.StepKeeps | internal/election/election.go:134-269 | every step keeps the accounting: votes are irrevocable, a voter has at most one ballot ticket per candidacy among those in flight and those counted, and a count never exceeds its distinct voters |
| ElectionSafety.AnswerIsNews | internal/election/election.go:214-215 | a vote that arrives comes from a voter not yet counted, although the counter does not deduplicate |
| Quorum.QuorumsIntersect | internal/election/election.go:219-220 | two quorums of a cluster share a member |
| Leadership.LeaderAgreement | internal/election/election.go:241-269 | all become-follower callbacks of one term name the same leader, the only winner of that term |
| Leadership.NamedLeaderWon | internal/election/election.go:228-269 | a leader a node names has won a term no later than the node's own |
| Leadership.TermsHaveNoGaps | internal/election/election.go:134-154 | every term from 1 to any term seen on a node or in a packet was opened by a candidate |
| Leadership.TermOpenedOnce | internal/election/election.go:134-139 | terms never decrease, only a timeout opens one, and no node opens a term twice |
| ElectionDuties.VoteIsGivenIff | internal/election/election.go:156-190 | in every reached cluster a vote is given if and only if the request is not old and the voter has never given its vote of that term to another candidate; the answer carries the voter's new term, and the voter's new state is as the outcome says |
| ElectionDuties.OvertakenNeverWins | internal/election/election.go:200-206 | a candidate answered from a higher term follows in that term with no vote cast, and in no continuation wins its old one |
| ElectionDuties.WinsWithMajorityIff | internal/election/election.go:208-239 | a candidate wins with exactly the answer that makes the distinct voters it has counted a majority of the cluster; then it leads and its log module is told, and no other answer does more than add a voter |
| ElectionDuties.LeaderWasAnnounced | internal/election/election.go:245-269 | whom a node names as its leader, its log module has been told to follow, no later than in the node's term |
| ElectionDuties.HeartbeatIsFollowed | internal/election/election.go:241-269 | after a heartbeat that is not old the node follows its sender in its term, and the log module is told unless it followed that leader already; an old one does nothing |
| ElectionDuties.LeaderBeats | internal/election/election.go:117-125 | a leader's tick puts a heartbeat of its term on its way to every other node and changes nothing else |
| ElectionDuties.OthersStand | internal/election/election.go:127-154 | any other node stands in the next term and votes for itself when its timeout has passed, and does nothing otherwise |
| ElectionDuties.OthersAsk | internal/election/election.go:146-154 | a node that stands asks every other node for its vote and sends nothing else |
| ElectionDuties.FreshElection | internal/election/election.go:50-67 | what every election node begins with |
| ElectionObject.ElectionNode.constructor | internal/election/election.go:50-67 | a fresh election node |
| ElectionObject.ElectionNode.CheckElectionTimeout | internal/election/election.go:117-132 | leaders send a heartbeat, others stand for election when their timeout has passed |
| ElectionObject.ElectionNode.StartElection | internal/election/election.go:134-154 | new term, own vote, request to all |
| ElectionObject.ElectionNode.HandleVoteRequest | internal/election/election.go:156-190 | whole new state and reply; a vote cast in a term is not changed in it |
| ElectionObject.ElectionNode.HandleVoteResponse | internal/election/election.go:192-226 | whole new state; leadership exactly at the quorum |
| ElectionObject.ElectionNode.HandleHeartbeat | internal/election/election.go:241-269 | whole new state; the callback unless it already follows that leader |
| ElectionObject.ElectionNode.Stop | internal/election/election.go:73-79 | the stop channel is closed, at most once |
| RingLaws.TokensCount | internal/lock/lock.go:131-195 | tokens held plus tokens in flight are exactly one in every run without a loss, and none after one |
| RingLaws.MutualExclusion | internal/lock/lock.go:26-27 | at most one node is in its critical section, it is the only one with the token, and none is in flight |
| RingLaws.GrantsAndReleasesAlternate | internal/lock/lock.go:199-286 | grants and releases alternate over the whole cluster, each release answering the grant before it; the open grant is that of the node inside |
| RingLaws.SequencePinsToken | internal/lock/lock.go:177-194 | a token with number s belongs to ring position s mod n, and no node knows a larger number |
| RingLaws.EveryoneInBetween | internal/lock/lock.go:177-194 | between two consecutive possessions by one node every other node has the token exactly once |
| RingLaws.FirstComeFirstServed | internal/lock/lock.go:136-158 | at each node the requests made are those granted followed by those waiting, in order and without repetition; the caller inside is the one granted last |
| RingSafety.StepKeeps | internal/lock/lock.go:131-286 | every action keeps the ring invariant |
| RingProgress.TurnBringsCloser | internal/lock/lock.go:131-286 | every delivery, idle pass and successful release grants a waiting request or strictly lowers (hops, in flight or held, local grants ahead); of all else only an arrival at the holder can raise it |
| RingProgress.GrantedWithinBudget | internal/lock/lock.go:131-286 | a waiting request is granted before the token has made more turns than two per hop plus the requests waiting or arriving |
| RingProgress.WaitIsBounded | internal/lock/lock.go:28-30 | the same from fresh nodes: 2n turns plus one for each request that waits or arrives |
| RingProgress.StarvationIsPossible | internal/lock/lock.go:260-281 | for every k, a lossless run with k successful releases after which a request at another node still waits |
| RingProgress.OccupiedIsReachable | internal/lock/lock.go:199-235 | fresh rings of two or more nodes reach that situation |
| TokenRing.TokenRingManager.constructor | internal/lock/lock.go:70-90 | the search loop finds the node's first position, or -1 |
| TokenRing.TokenRingManager.HandleTokenReceive | internal/lock/lock.go:131-163 | whole new state and the request granted |
| TokenRing.TokenRingManager.IdlePass | internal/lock/lock.go:166-173 | an idle token is passed on, otherwise nothing changes |
| TokenRing.TokenRingManager.PassTokenLocked | internal/lock/lock.go:177-195 | successor and sequence number of the token passed |
| TokenRing.TokenRingManager.RequestAccess | internal/lock/lock.go:199-235 | immediate grant or the end of the queue |
| TokenRing.TokenRingManager.ReleaseAccess | internal/lock/lock.go:238-286 | both refusals, the local re-grant, and the pass |
| TokenRing.TokenRingManager.Stop | internal/lock/lock.go:105-111 | the stop channel is closed, at most once |
| RingModel.IndexOf | internal/lock/lock.go:71-77 | the first position of an id in the ring, or -1 exactly when it is not on it |
| Quorum.Majority | internal/consensus/consensus.go:306-307 | more than half, and never more than all |
| Coordinator.RingOrder | internal/coordinator/coordinator.go:42-46 | the same ids in ascending order |
| Coordinator.SameRingEverywhere | internal/coordinator/coordinator.go:41-46 | all nodes work out the same ring: every id once, strictly ascending |
| Coordinator.RingStartsFresh | internal/coordinator/coordinator.go:57 | the rings built independently hold one token, at the lowest id, and start the ring theorems |
| Coordinator.EnsembleStartsFresh | internal/coordinator/coordinator.go:49-59 | so do the elections and the logs |
| Coordinator.CoordinatorNode.constructor | internal/coordinator/coordinator.go:41-77 | the three modules as built |
| Coordinator.CoordinatorNode.OnBecomeLeader | internal/coordinator/coordinator.go:62-66 | the callback makes the log module leader |
| Coordinator.CoordinatorNode.OnBecomeFollower | internal/coordinator/coordinator.go:68-72 | the callback makes it follower |
| Coordinator.CoordinatorNode.ProposeChange | internal/coordinator/coordinator.go:335-342 | refused without effect unless the election module leads; otherwise, after whatever the log module did meanwhile, its proposal |
| Coordinator.CoordinatorNode.Kill | internal/coordinator/coordinator.go:309-318 | the node is not alive and its election and token loops are told to stop; the modules keep their state and the log module is not stopped |
| Coordinator.CoordinatorNode.Stop | internal/coordinator/coordinator.go:83-96 | the same, and the log module is stopped too |

## Left out

- Wall-clock time: tickers, random election timeouts, the replication timeout and `CreatedAt`. A timeout is a choice of the run; a proposal may give up at any moment.
- The transport, RPC set-up and reconnection; channel capacities and blocking. In RPC mode a one-node ring loses the token it passes to itself; the ring model delivers it or loses it.
- Restart with lost volatile state, membership change, duplicate node ids.
- Negative node ids: the log prefix is indexed by the id modulo six and fails on them (internal/types/types.go:20-24), so ids are natural numbers.
- Requests with a previous index below -1 and acknowledgements with a match index below -1, which no node sends.
- A killed coordinator stops its election and token loop; its lock interface and its log module go on answering (internal/coordinator/coordinator.go:309-318). Dropping messages to dead nodes is message loss.
- In the ensemble a node with open proposals may broadcast any number of times, and a wait may look at the commit index without having handled an answer; both allow more runs than the program has. Every run given here as a failing example handles an answer before a wait succeeds.
- Proposal.ProposeSucceeds: speaks of recorded match indices, because one node cannot see what others hold; ProposeAlone, SuccessIsCountedIff and AwaitCounts do too. What the others hold is stated by Commitment.ProposeTrueMeansCommitted.
- Proposal.ProposeAlone: see Proposal.ProposeSucceeds.
- Proposal.SuccessIsCountedIff: see Proposal.ProposeSucceeds.
- Proposal.AwaitCounts: see Proposal.ProposeSucceeds.
- Commitment.ProposeTrueMeansCommitted: holds within an epoch; when other leaders are at work, Confirmation.ConfirmReportsOwnIff says when the entry is in place, and nothing is claimed about who else holds it.
- RingProgress.WaitIsBounded: counts turns of the token, not time; nothing forces a caller inside to release.
- The order of a node's answers to blocked callers beyond the order of grants.
- `sort.Ints` is a function with its meaning, not an in-place algorithm.
- Logging, colours, the unused transaction id and the unused resource argument of ReleaseAccess.
- The chat server, the client, `cmd`, `demo` and `scripts`: storage, command lines and printing.
