/** An epoch: a stretch of any run during which one leader of term t is the only node taking
    leader-side steps in its log module. Everything else may happen in any order: elections, callbacks
    of up to term t at other nodes, losses, reordering. */
module Epoch {
  import opened Types
  import opened Quorum
  import opened Ordering
  import opened LogModel
  import opened LogFacts
  import opened Proposal
  import opened Ensemble
  import opened EpochLog
  import F = Follower
  import EC = ElectionCluster

  /** The leader, its term, the length its log had at the start and the commit index it had then;
      `before` are the proposals that had already returned. */
  datatype Reign = Reign(leader: nat, term: int, start: nat, commit0: int, before: set<Receipt>)

  /** No action of another node's leader side, no callback that ends the reign, and no acknowledgement of an
      earlier term: the program handles those too, since it never compares the term of an answer that
      reports success with its own. */
  predicate Allowed(a: Action, c: Reign) {
    match a
    case Notify(call) => call.node != c.leader && call.term <= c.term
    case ProposeAt(i, _, _, _) => i == c.leader
    case SendAll(i) => i == c.leader
    case Finish(r) => r.node == c.leader
    case Acknowledge(k) => k.dst == c.leader && CurrentAnswer(k.resp, c.term)
    case Confirm(i, _) => i == c.leader
    case _ => true
  }

  /** The test that the program omits. */
  predicate CurrentAnswer(resp: AppendResponse, term: int) {
    resp.success ==> resp.term == term
  }

  // ---------- the invariant ----------

  ghost predicate LeaderOk(n: LogState, c: Reign, all: set<nat>) {
    && n.isLeader && n.currentTerm == c.term
    && Distinct(n.peers) && Members(n.peers) == all - {c.leader} && c.leader in all
    && LeaderLog(n.log, c.term, c.start)
    && c.commit0 < c.start
  }

  ghost predicate NodesOk(logs: map<nat, LogState>, l: seq<LogEntry>, t: int) {
    forall i :: i in logs ==> logs[i].id == i && NodeOk(logs[i], l, t)
  }

  ghost predicate LetterOk(all: set<nat>, c: Reign, l: seq<LogEntry>, m: Outgoing) {
    m.dst in all && m.dst != c.leader && m.req.leaderID == c.leader && RequestOk(m.req, l, c.term, c.start)
  }

  /** An acknowledgement of the leader's term names a prefix the follower really shares with the leader. */
  ghost predicate AckOk(logs: map<nat, LogState>, c: Reign, l: seq<LogEntry>, k: Ack) {
    k.dst == c.leader ==>
      && k.resp.term <= c.term && k.resp.matchIndex >= -1
      && k.resp.followerID in logs && k.resp.followerID != c.leader
      && (k.resp.success && k.resp.term == c.term ==> Shares(logs[k.resp.followerID].log, l, k.resp.matchIndex + 1))
  }

  ghost predicate PeerOk(logs: map<nat, LogState>, n: LogState, l: seq<LogEntry>, p: nat) {
    && p in logs && p in n.nextIndex && p in n.matchIndex
    && n.nextIndex[p] <= |l| && n.matchIndex[p] >= -1
    && Shares(logs[p].log, l, n.matchIndex[p] + 1)
  }

  /** The nodes that hold the leader's log through index n. */
  ghost function Holders(logs: map<nat, LogState>, l: seq<LogEntry>, n: int): set<nat> {
    set i | i in logs && Shares(logs[i].log, l, n + 1)
  }

  ghost predicate Held(logs: map<nat, LogState>, l: seq<LogEntry>, n: int) {
    |Holders(logs, l, n)| >= Majority(|logs.Keys|)
  }

  ghost predicate EntryOk(c: Reign, l: seq<LogEntry>, e: LogEntry) {
    c.start <= e.index < |l| && l[e.index] == e
  }

  /** A proposal that succeeded: its entry is in the leader's log, applied there, and held by a majority. */
  ghost predicate DoneOk(logs: map<nat, LogState>, c: Reign, n: LogState, e: LogEntry) {
    EntryOk(c, n.log, e) && n.lastApplied >= e.index && Held(logs, n.log, e.index)
  }

  ghost predicate CallsOk(s: System, c: Reign, n: LogState) {
    && c.leader in s.open
    && (forall e :: e in s.open[c.leader] ==> EntryOk(c, n.log, e))
    && (forall r :: r in s.finishing && r.node == c.leader ==> DoneOk(s.logs, c, n, r.entry))
    && (forall r :: r in s.receipts && r.node == c.leader && r !in c.before ==> DoneOk(s.logs, c, n, r.entry))
  }

  ghost predicate CommitOk(logs: map<nat, LogState>, c: Reign, n: LogState) {
    n.commitIndex == c.commit0 || Held(logs, n.log, n.commitIndex)
  }

  ghost predicate Inv(s: System, c: Reign) {
    && c.leader in s.logs
    && var n := s.logs[c.leader];
    && LeaderOk(n, c, s.logs.Keys)
    && NodesOk(s.logs, n.log, c.term)
    && (forall m :: m in s.letters ==> LetterOk(s.logs.Keys, c, n.log, m))
    && (forall k :: k in s.acks ==> AckOk(s.logs, c, n.log, k))
    && (forall p :: p in n.peers ==> PeerOk(s.logs, n, n.log, p))
    && CallsOk(s, c, n)
    && CommitOk(s.logs, c, n)
  }

  /** What may be assumed when the reign begins: the committed prefix of every node is a prefix of the
      leader's log, logs match, all entries are of earlier terms, no request is out, and the answers on
      their way to the leader are old. */
  ghost predicate Ready(s: System, leader: nat, t: int) {
    && leader in s.logs && leader in s.open
    && var n := s.logs[leader];
    && Distinct(n.peers) && Members(n.peers) == s.logs.Keys - {leader}
    && (forall i :: i in s.logs ==>
          && s.logs[i].id == i && Valid(s.logs[i]) && s.logs[i].currentTerm <= t
          && TermsAscend(s.logs[i].log) && (forall k :: 0 <= k < |s.logs[i].log| ==> s.logs[i].log[k].term < t)
          && Match(s.logs[i].log, n.log)
          && Applied(s.logs[i], n.log))
    && s.letters == multiset{}
    && (forall k :: k in s.acks && k.dst == leader ==> OldAnswer(s.logs.Keys, leader, t, k.resp))
    && s.open[leader] == {} && (forall r :: r in s.finishing ==> r.node != leader)
  }

  /** An answer from another node of the cluster to a request of an earlier term. */
  ghost predicate OldAnswer(all: set<nat>, leader: nat, t: int, resp: AppendResponse) {
    && resp.term <= t && resp.matchIndex >= -1 && resp.followerID in all && resp.followerID != leader
    && (resp.success ==> resp.term < t)
  }

  /** The reign begins: the leader's BecomeLeader has just run. */
  ghost predicate Starts(s: System, leader: nat, t: int) {
    && Ready(s, leader, t)
    && var n := s.logs[leader];
    && n.isLeader && n.currentTerm == t
    && forall p :: p in n.peers ==>
         p in n.nextIndex && n.nextIndex[p] == |n.log| && p in n.matchIndex && n.matchIndex[p] == -1
  }

  function ReignOf(s: System, leader: nat): Reign
    requires leader in s.logs
  {
    var n := s.logs[leader];
    Reign(leader, n.currentTerm, |n.log|, n.commitIndex, s.receipts)
  }

  lemma StartIsOk(s: System, leader: nat, t: int)
    requires Starts(s, leader, t)
    ensures Inv(s, ReignOf(s, leader))
  {
    var n := s.logs[leader];
    assert Applied(n, n.log);
    forall i | i in s.logs ensures NodeOk(s.logs[i], n.log, t) {
    }
    assert leader in s.logs.Keys;
    forall p | p in n.peers ensures PeerOk(s.logs, n, n.log, p) {
      assert p in Members(n.peers);
    }
  }

  // ---------- later states ----------

  /** Nodes keep everything they share with the leader, and commit and apply indices never go back. */
  ghost predicate Later(logs: map<nat, LogState>, l: seq<LogEntry>, logs': map<nat, LogState>, l': seq<LogEntry>) {
    && logs'.Keys == logs.Keys && l <= l'
    && forall i :: i in logs ==> NodeLater(logs[i], l, logs'[i], l')
  }

  ghost predicate NodeLater(n: LogState, l: seq<LogEntry>, n': LogState, l': seq<LogEntry>) {
    && (forall m :: Shares(n.log, l, m) ==> Shares(n'.log, l', m))
    && n.commitIndex <= n'.commitIndex && n.lastApplied <= n'.lastApplied
  }

  lemma HeldLater(logs: map<nat, LogState>, l: seq<LogEntry>, logs': map<nat, LogState>, l': seq<LogEntry>, n: int)
    requires Later(logs, l, logs', l') && Held(logs, l, n)
    ensures Held(logs', l', n) && Holders(logs, l, n) <= Holders(logs', l', n)
  {
    forall i | i in Holders(logs, l, n) ensures i in Holders(logs', l', n) {
      assert NodeLater(logs[i], l, logs'[i], l');
    }
    SubsetSize(Holders(logs, l, n), Holders(logs', l', n));
  }

  lemma HeldLess(logs: map<nat, LogState>, l: seq<LogEntry>, n: int, m: int)
    requires Held(logs, l, n) && -1 <= m <= n
    ensures Held(logs, l, m)
  {
    forall i | i in Holders(logs, l, n) ensures i in Holders(logs, l, m) {
      SharesLess(logs[i].log, l, n + 1, m + 1);
    }
    SubsetSize(Holders(logs, l, n), Holders(logs, l, m));
  }

  lemma AcksLater(logs: map<nat, LogState>, l: seq<LogEntry>, logs': map<nat, LogState>, l': seq<LogEntry>,
                  c: Reign, k: Ack)
    requires Later(logs, l, logs', l') && AckOk(logs, c, l, k)
    ensures AckOk(logs', c, l', k)
  {
    if k.dst == c.leader {
      assert NodeLater(logs[k.resp.followerID], l, logs'[k.resp.followerID], l');
    }
  }

  lemma PeerLater(logs: map<nat, LogState>, n: LogState, l: seq<LogEntry>,
                  logs': map<nat, LogState>, n': LogState, l': seq<LogEntry>, p: nat)
    requires Later(logs, l, logs', l') && PeerOk(logs, n, l, p)
    requires n'.nextIndex == n.nextIndex && n'.matchIndex == n.matchIndex
    ensures PeerOk(logs', n', l', p)
  {
    assert NodeLater(logs[p], l, logs'[p], l');
  }

  lemma DoneLater(logs: map<nat, LogState>, n: LogState, logs': map<nat, LogState>, n': LogState, c: Reign, e: LogEntry)
    requires Later(logs, n.log, logs', n'.log) && DoneOk(logs, c, n, e) && n.lastApplied <= n'.lastApplied
    ensures DoneOk(logs', c, n', e)
  {
    HeldLater(logs, n.log, logs', n'.log, e.index);
  }

  // ---------- a follower changes ----------

  lemma OneNodeLater(logs: map<nat, LogState>, l: seq<LogEntry>, i: nat, n': LogState)
    requires i in logs && KeepsShared(logs[i].log, n'.log, l)
    requires logs[i].commitIndex <= n'.commitIndex && logs[i].lastApplied <= n'.lastApplied
    ensures Later(logs, l, logs[i := n'], l)
  {
    assert logs[i := n'].Keys == logs.Keys;
  }

  /** The rest of the invariant survives whatever makes nodes later, as long as the leader's own
      bookkeeping stands still. */
  lemma RestLater(s: System, s': System, c: Reign)
    requires Inv(s, c) && c.leader in s'.logs
    requires var n, n' := s.logs[c.leader], s'.logs[c.leader];
             && Later(s.logs, n.log, s'.logs, n'.log)
             && n'.nextIndex == n.nextIndex && n'.matchIndex == n.matchIndex && n'.peers == n.peers
             && n'.commitIndex == n.commitIndex && n'.lastApplied == n.lastApplied
             && forall e :: EntryOk(c, n.log, e) ==> EntryOk(c, n'.log, e)
    requires c.leader in s'.open && s'.finishing <= s.finishing && s'.receipts == s.receipts
    requires forall e :: e in s'.open[c.leader] && e !in s.open[c.leader] ==> EntryOk(c, s'.logs[c.leader].log, e)
    ensures var n' := s'.logs[c.leader];
            && (forall p :: p in n'.peers ==> PeerOk(s'.logs, n', n'.log, p))
            && CallsOk(s', c, n') && CommitOk(s'.logs, c, n')
            && (forall k :: k in s.acks ==> AckOk(s'.logs, c, n'.log, k))
  {
    hide Later, LeaderOk, NodesOk, LetterOk, AckOk, PeerOk, EntryOk, DoneOk, Held;
    var n, n' := s.logs[c.leader], s'.logs[c.leader];
    forall p | p in n'.peers ensures PeerOk(s'.logs, n', n'.log, p) {
      PeerLater(s.logs, n, n.log, s'.logs, n', n'.log, p);
    }
    forall r | r in s'.finishing && r.node == c.leader ensures DoneOk(s'.logs, c, n', r.entry) {
      DoneLater(s.logs, n, s'.logs, n', c, r.entry);
    }
    forall r | r in s'.receipts && r.node == c.leader && r !in c.before ensures DoneOk(s'.logs, c, n', r.entry) {
      DoneLater(s.logs, n, s'.logs, n', c, r.entry);
    }
    if n.commitIndex != c.commit0 {
      HeldLater(s.logs, n.log, s'.logs, n'.log, n.commitIndex);
    }
    forall k | k in s.acks ensures AckOk(s'.logs, c, n'.log, k) {
      AcksLater(s.logs, n.log, s'.logs, n'.log, c, k);
    }
  }

  /** A follower that stays in order and loses nothing it shares keeps the epoch in order. */
  lemma FollowerChanges(s: System, s': System, c: Reign, i: nat)
    requires Inv(s, c) && i in s.logs && i != c.leader && i in s'.logs && s'.logs == s.logs[i := s'.logs[i]]
    requires var n' := s'.logs[i]; var l := s.logs[c.leader].log;
             && n'.id == i && NodeOk(n', l, c.term) && KeepsShared(s.logs[i].log, n'.log, l)
             && s.logs[i].commitIndex <= n'.commitIndex && s.logs[i].lastApplied <= n'.lastApplied
    requires s'.letters <= s.letters && s'.open == s.open && s'.finishing == s.finishing && s'.receipts == s.receipts
    requires forall k :: k in s'.acks && k !in s.acks ==> AckOk(s'.logs, c, s.logs[c.leader].log, k)
    ensures Inv(s', c) && Later(s.logs, s.logs[c.leader].log, s'.logs, s'.logs[c.leader].log)
  {
    hide LeaderOk, LetterOk, AckOk, PeerOk, EntryOk, DoneOk, Held, NodeOk, CommitOk, Later;
    OneNodeLater(s.logs, s.logs[c.leader].log, i, s'.logs[i]);
    RestLater(s, s', c);
    assert s'.logs.Keys == s.logs.Keys;
  }

  lemma LetterFacts(s: System, c: Reign, m: Outgoing)
    requires Inv(s, c) && m in s.letters
    ensures m.dst in s.logs && m.dst != c.leader && m.req.leaderID == c.leader && m.req.prevLogIndex >= -1
    ensures c.leader in s.logs && s.logs[m.dst].id == m.dst && Valid(s.logs[m.dst])
    ensures var l := s.logs[c.leader].log;
            LeaderLog(l, c.term, c.start) && NodeOk(s.logs[m.dst], l, c.term) && RequestOk(m.req, l, c.term, c.start)
  {
    assert LetterOk(s.logs.Keys, c, s.logs[c.leader].log, m);
    hide LeaderLog, RequestOk, Aligned, Applied;
    RequestFacts(m.req, s.logs[c.leader].log, c.term, c.start);
  }

  /** A delivered request leaves its receiver in order, and what the receiver answers is true of it. */
  lemma AppendNode(s: System, c: Reign, m: Outgoing)
    requires Inv(s, c) && m in s.letters
    ensures m.dst in s.logs && m.dst != c.leader && Valid(s.logs[m.dst]) && m.req.prevLogIndex >= -1
    ensures var n, l := s.logs[m.dst], s.logs[c.leader].log;
            var r := HandleAppendEntries(n, m.req);
            && r.state.id == m.dst && NodeOk(r.state, l, c.term) && KeepsShared(n.log, r.state.log, l)
            && n.commitIndex <= r.state.commitIndex && n.lastApplied <= r.state.lastApplied
            && AckOk(s.logs[m.dst := r.state], c, l, Ack(m.req.leaderID, r.resp))
  {
    hide Inv, NodeOk, HandleAppendEntries, RequestOk, LeaderLog, KeepsShared, Shares, HasPrevious, F.LogAfter;
    LetterFacts(s, c, m);
    var n, l := s.logs[m.dst], s.logs[c.leader].log;
    FollowerStep(n, l, c.term, c.start, m.req);
    F.HandleShape(n, m.req);
    if HandleAppendEntries(n, m.req).resp.success {
      PrefixShares(HandleAppendEntries(n, m.req).state.log, l);
    }
  }

  lemma AppendKeeps(s: System, c: Reign, m: Outgoing)
    requires Inv(s, c) && Enabled(s, Ensemble.Append(m))
    ensures Safe(s, Ensemble.Append(m))
    ensures var s' := Step(s, Ensemble.Append(m));
            Inv(s', c) && Later(s.logs, s.logs[c.leader].log, s'.logs, s'.logs[c.leader].log)
  {
    hide Inv, NodeOk, HandleAppendEntries, Step, KeepsShared, Later, AckOk;
    LeaderLogOf(s, c);
    AppendNode(s, c, m);
    AppendStep(s, m);
    FollowerChanges(s, Step(s, Ensemble.Append(m)), c, m.dst);
  }

  lemma LeaderLogOf(s: System, c: Reign)
    requires Inv(s, c)
    ensures c.leader in s.logs && LeaderLog(s.logs[c.leader].log, c.term, c.start)
  {
  }

  lemma IdOf(s: System, c: Reign, i: nat)
    requires Inv(s, c) && i in s.logs
    ensures s.logs[i].id == i
  {
  }

  lemma NotifyKeeps(s: System, c: Reign, call: EC.Call)
    requires Inv(s, c) && Enabled(s, Notify(call)) && Allowed(Notify(call), c)
    ensures var s' := Step(s, Notify(call));
            Inv(s', c) && Later(s.logs, s.logs[c.leader].log, s'.logs, s'.logs[c.leader].log)
  {
    var n, l := s.logs[call.node], s.logs[c.leader].log;
    assert NodeOk(n, l, c.term);
    var s' := Step(s, Notify(call));
    hide Inv, Step, Aligned, Applied, Later, KeepsShared;
    IdOf(s, c, call.node);
    NotifiedOk(n, l, c.term, call);
    FollowerChanges(s, s', c, call.node);
  }

  lemma NotifiedOk(n: LogState, l: seq<LogEntry>, t: int, call: EC.Call)
    requires NodeOk(n, l, t) && call.term <= t
    ensures var n' := Notified(n, call);
            && NodeOk(n', l, t) && n'.id == n.id && KeepsShared(n.log, n'.log, l)
            && n'.commitIndex == n.commitIndex && n'.lastApplied == n.lastApplied
  {
    if call.LeaderCall? {
      BecomeLeaderKeepsValid(n, call.term);
    }
  }

  lemma SameLater(s: System, c: Reign)
    requires c.leader in s.logs
    ensures Later(s.logs, s.logs[c.leader].log, s.logs, s.logs[c.leader].log)
  {
  }

  /** Elections, losses and given-up waits leave every log alone. */
  lemma LogsSame(s: System, s': System, c: Reign)
    requires Inv(s, c) && s'.logs == s.logs && s'.letters <= s.letters && s'.acks <= s.acks
    requires s'.finishing == s.finishing && s'.receipts == s.receipts
    requires c.leader in s'.open && c.leader in s.open && s'.open[c.leader] <= s.open[c.leader]
    ensures Inv(s', c) && Later(s.logs, s.logs[c.leader].log, s'.logs, s'.logs[c.leader].log)
  {
    hide LeaderOk, NodesOk, LetterOk, AckOk, PeerOk, EntryOk, DoneOk, CommitOk, Later;
    SameLater(s, c);
  }

  lemma RestKeeps(s: System, c: Reign, a: Action)
    requires Inv(s, c) && Enabled(s, a) && Safe(s, a) && (a.Elect? || a.GiveUp? || a.LoseLetter? || a.LoseAck?)
    ensures var s' := Step(s, a);
            c.leader in s'.logs && c.leader in s.logs &&
            Inv(s', c) && Later(s.logs, s.logs[c.leader].log, s'.logs, s'.logs[c.leader].log)
  {
    hide Step, LeaderOk, NodesOk, LetterOk, AckOk, PeerOk, EntryOk, DoneOk, CommitOk, Later;
    RestStep(s, a);
    LogsSame(s, Step(s, a), c);
  }

  // ---------- the leader's bookkeeping changes ----------

  /** The leader's indices move but its log does not. */
  lemma LeaderChanges(s: System, s': System, c: Reign)
    requires Inv(s, c) && c.leader in s'.logs && s'.logs == s.logs[c.leader := s'.logs[c.leader]]
    requires var n, n' := s.logs[c.leader], s'.logs[c.leader];
             && n'.id == n.id && n'.peers == n.peers && n'.log == n.log && n'.isLeader && n'.currentTerm == c.term
             && n.commitIndex <= n'.commitIndex && n.lastApplied <= n'.lastApplied
             && NodeOk(n', n.log, c.term)
             && (forall p :: p in n.peers ==> PeerOk(s.logs, n', n.log, p))
             && (n'.commitIndex == n.commitIndex || Held(s.logs, n.log, n'.commitIndex))
    requires forall m :: m in s'.letters && m !in s.letters ==> LetterOk(s.logs.Keys, c, s.logs[c.leader].log, m)
    requires s'.acks <= s.acks
    requires c.leader in s'.open && c.leader in s.open && s'.open[c.leader] <= s.open[c.leader]
    requires forall r :: r in s'.finishing && r !in s.finishing && r.node == c.leader ==>
               DoneOk(s.logs, c, s'.logs[c.leader], r.entry)
    requires forall r :: r in s'.receipts && r !in s.receipts && r.node == c.leader ==>
               DoneOk(s.logs, c, s'.logs[c.leader], r.entry)
    ensures Inv(s', c) && Later(s.logs, s.logs[c.leader].log, s'.logs, s'.logs[c.leader].log)
  {
    hide LetterOk, AckOk, EntryOk, Held, NodeOk, Later, LeaderLog;
    var n, n' := s.logs[c.leader], s'.logs[c.leader];
    var l := n.log;
    SelfKeeps(l, l);
    OneNodeLater(s.logs, l, c.leader, n');
    assert s'.logs.Keys == s.logs.Keys;
    forall i | i in s.logs ensures s'.logs[i].log == s.logs[i].log {}
    SameHeld(s.logs, s'.logs, l);
    forall k | k in s'.acks ensures AckOk(s'.logs, c, l, k) {
      AcksLater(s.logs, l, s'.logs, l, c, k);
    }
  }

  /** Who holds what depends on the logs alone. */
  lemma SameHeld(logs: map<nat, LogState>, logs': map<nat, LogState>, l: seq<LogEntry>)
    requires logs'.Keys == logs.Keys && forall i :: i in logs ==> logs'[i].log == logs[i].log
    ensures forall n :: Held(logs, l, n) <==> Held(logs', l, n)
  {
    forall n ensures Holders(logs, l, n) == Holders(logs', l, n) {}
  }

  lemma LeaderFacts(s: System, c: Reign)
    requires Inv(s, c)
    ensures c.leader in s.logs
    ensures var n := s.logs[c.leader];
            && n.id == c.leader && NodeOk(n, n.log, c.term) && Valid(n)
            && LeaderOk(n, c, s.logs.Keys) && LeaderLog(n.log, c.term, c.start)
            && n.commitIndex < |n.log| && n.lastApplied <= n.commitIndex
            && n.isLeader && n.currentTerm == c.term
            && (forall p :: p in n.peers ==> p in s.logs && p != c.leader && PeerOk(s.logs, n, n.log, p))
  {
    hide LeaderLog, Aligned, LetterOk, AckOk;
    var n := s.logs[c.leader];
    forall p | p in n.peers ensures p in s.logs && p != c.leader {
      assert p in Members(n.peers);
    }
  }

  /** A request built once the leader has an entry of its own term is a window into that term. */
  lemma BuiltRequestOk(n: LogState, l: seq<LogEntry>, c: Reign, p: nat)
    requires Valid(n) && n.log == l && n.currentTerm == c.term && c.start < |l| && n.commitIndex < |l|
    requires Lookup(n.nextIndex, p) <= |l|
    ensures RequestOk(BuildRequest(n, p), l, c.term, c.start) && BuildRequest(n, p).leaderID == n.id
  {
  }

  lemma SendKeeps(s: System, c: Reign, a: Action)
    requires Inv(s, c) && Enabled(s, a) && (a == SendAll(c.leader) || (a.Finish? && a.receipt.node == c.leader))
    ensures Safe(s, a)
    ensures var s' := Step(s, a);
            Inv(s', c) && Later(s.logs, s.logs[c.leader].log, s'.logs, s'.logs[c.leader].log)
  {
    LeaderFacts(s, c);
    var n := s.logs[c.leader];
    assert c.start < |n.log| by { SomeEntry(s, c, a); }
    SendOk(s, c);
    SendStep(s, a, c.leader);
    var s' := Step(s, a);
    FinishOk(s, c, a);
    hide LeaderOk, NodeOk, PeerOk, Inv, LetterOk, DoneOk, Later, Step, Enabled, LeaderLog, Safe;
    assert s.logs[c.leader := n] == s.logs;
    LeaderChanges(s, s', c);
  }

  lemma SomeEntry(s: System, c: Reign, a: Action)
    requires Inv(s, c) && Enabled(s, a)
    requires || a == SendAll(c.leader) || (a.Finish? && a.receipt.node == c.leader)
             || (a.Acknowledge? && a.ack.dst == c.leader)
    ensures c.start < |s.logs[c.leader].log|
  {
    hide LeaderOk, NodesOk, LetterOk, AckOk, PeerOk, Held, CommitOk;
    if !a.Finish? {
      var e :| e in s.open[c.leader];
      assert EntryOk(c, s.logs[c.leader].log, e);
    }
  }

  lemma FinishOk(s: System, c: Reign, a: Action)
    requires Inv(s, c) && Enabled(s, a) && Safe(s, a)
    requires a == SendAll(c.leader) || (a.Finish? && a.receipt.node == c.leader)
    ensures var s' := Step(s, a);
            && c.leader in s.open && s'.finishing <= s.finishing
            && forall r :: r in s'.receipts && r !in s.receipts && r.node == c.leader ==>
                 DoneOk(s.logs, c, s.logs[c.leader], r.entry)
  {
    hide LeaderOk, NodesOk, LetterOk, AckOk, PeerOk, DoneOk, CommitOk;
  }

  lemma SendOk(s: System, c: Reign)
    requires Inv(s, c) && c.start < |s.logs[c.leader].log|
    ensures Valid(s.logs[c.leader])
    ensures forall m :: m in Broadcast(s.logs[c.leader]) ==> LetterOk(s.logs.Keys, c, s.logs[c.leader].log, m)
  {
    LeaderFacts(s, c);
    var n := s.logs[c.leader];
    hide Inv, LeaderOk, NodeOk, LeaderLog;
    forall m | m in Broadcast(n) ensures LetterOk(s.logs.Keys, c, n.log, m) {
      assert m.dst in n.peers;
      assert PeerOk(s.logs, n, n.log, m.dst);
      BuiltRequestOk(n, n.log, c, m.dst);
    }
  }

  // ---------- acknowledgements and commitment ----------

  lemma {:induction false} CountMembers(peers: seq<nat>, m: map<nat, int>, n: int, who: set<nat>)
    requires Distinct(peers)
    requires forall p :: p in peers && Lookup(m, p) >= n ==> p in who
    ensures CountAtLeast(MatchList(peers, m), n) <= |who|
  {
    if peers != [] {
      var rest := peers[1..];
      assert MatchList(peers, m)[1..] == MatchList(rest, m);
      if Lookup(m, peers[0]) >= n {
        CountMembers(rest, m, n, who - {peers[0]});
      } else {
        CountMembers(rest, m, n, who);
      }
    }
  }

  /** Counting match indices up to a quorum is counting real holders. */
  lemma QuorumHolds(logs: map<nat, LogState>, c: Reign, n: LogState, idx: int)
    requires c.leader in logs && logs[c.leader].log == n.log && 0 <= idx < |n.log|
    requires Distinct(n.peers) && Members(n.peers) == logs.Keys - {c.leader}
    requires forall p :: p in n.peers ==> PeerOk(logs, n, n.log, p)
    requires Replicas(n, idx) >= Majority(|n.peers| + 1)
    ensures Held(logs, n.log, idx)
  {
    var who := Holders(logs, n.log, idx) - {c.leader};
    forall p | p in n.peers && Lookup(n.matchIndex, p) >= idx ensures p in who {
      assert p in Members(n.peers) && PeerOk(logs, n, n.log, p);
      SharesLess(logs[p].log, n.log, n.matchIndex[p] + 1, idx + 1);
    }
    CountMembers(n.peers, n.matchIndex, idx, who);
    assert c.leader in Holders(logs, n.log, idx);
    assert Holders(logs, n.log, idx) == who + {c.leader};
    DistinctSize(n.peers);
    assert logs.Keys == Members(n.peers) + {c.leader};
  }

  lemma AckFacts(s: System, c: Reign, k: Ack)
    requires Inv(s, c) && k in s.acks && k.dst == c.leader
    ensures k.resp.term <= c.term && k.resp.matchIndex >= -1
    ensures k.resp.followerID in s.logs && k.resp.followerID != c.leader && k.resp.followerID in s.logs[c.leader].peers
    ensures k.resp.success && k.resp.term == c.term ==>
              Shares(s.logs[k.resp.followerID].log, s.logs[c.leader].log, k.resp.matchIndex + 1)
  {
    assert AckOk(s.logs, c, s.logs[c.leader].log, k);
    hide NodesOk, LetterOk, PeerOk, CallsOk, CommitOk, LeaderLog;
    assert k.resp.followerID in Members(s.logs[c.leader].peers);
  }

  lemma PeerAfterResponse(logs: map<nat, LogState>, n: LogState, resp: AppendResponse, p: nat)
    requires Valid(n) && resp.matchIndex >= -1 && PeerOk(logs, n, n.log, p)
    requires resp.success && p == resp.followerID ==> Shares(logs[p].log, n.log, resp.matchIndex + 1)
    ensures PeerOk(logs, HandleResponse(n, resp).state, n.log, p)
  {
  }

  lemma LeaderAfterResponse(n: LogState, resp: AppendResponse)
    requires Valid(n) && resp.matchIndex >= -1 && n.isLeader && resp.term <= n.currentTerm && n.commitIndex < |n.log|
    ensures var n' := HandleResponse(n, resp).state;
            && n'.id == n.id && n'.peers == n.peers && n'.log == n.log && n'.isLeader && n'.currentTerm == n.currentTerm
            && n.commitIndex <= n'.commitIndex < |n.log| && n.lastApplied == n'.lastApplied && n'.table == n.table
            && Valid(n')
  {
    HandleResponseKeeps(n, resp);
  }

  /** The leader's new bookkeeping after one of its own epoch's answers. */
  lemma AcknowledgeNode(s: System, c: Reign, k: Ack)
    requires Inv(s, c) && k in s.acks && k.dst == c.leader && CurrentAnswer(k.resp, c.term)
    ensures Valid(s.logs[c.leader]) && k.resp.matchIndex >= -1
    ensures var n := s.logs[c.leader];
            var n' := HandleResponse(n, k.resp).state;
            && n'.id == n.id && n'.peers == n.peers && n'.log == n.log && n'.isLeader && n'.currentTerm == c.term
            && n.commitIndex <= n'.commitIndex < |n.log| && n.lastApplied == n'.lastApplied && n'.table == n.table
            && Valid(n')
            && forall p :: p in n.peers ==> PeerOk(s.logs, n', n.log, p)
  {
    hide Inv, LeaderOk, NodeOk, LeaderLog, Shares, HandleResponse, PeerOk;
    LeaderFacts(s, c);
    AckFacts(s, c, k);
    var n := s.logs[c.leader];
    LeaderAfterResponse(n, k.resp);
    forall p | p in n.peers ensures PeerOk(s.logs, HandleResponse(n, k.resp).state, n.log, p) {
      PeerAfterResponse(s.logs, n, k.resp, p);
    }
  }

  lemma LeaderStaysOk(n: LogState, n': LogState, t: int)
    requires NodeOk(n, n.log, t) && Valid(n')
    requires n'.log == n.log && n'.table == n.table && n'.lastApplied == n.lastApplied
    requires n'.currentTerm == n.currentTerm && n.commitIndex <= n'.commitIndex < |n.log|
    ensures NodeOk(n', n.log, t)
  {
  }

  lemma AcknowledgeKeeps(s: System, c: Reign, k: Ack)
    requires Inv(s, c) && Enabled(s, Acknowledge(k)) && k.dst == c.leader && CurrentAnswer(k.resp, c.term)
    ensures Safe(s, Acknowledge(k))
    ensures var s' := Step(s, Acknowledge(k));
            Inv(s', c) && Later(s.logs, s.logs[c.leader].log, s'.logs, s'.logs[c.leader].log)
  {
    hide Inv, Step, Later, HandleResponse, Held, PeerOk, LeaderOk, NodeOk, LeaderLog, Shares, RequestOk;
    LeaderFacts(s, c);
    AcknowledgeNode(s, c, k);
    SomeEntry(s, c, Acknowledge(k));
    var n := s.logs[c.leader];
    var n' := HandleResponse(n, k.resp).state;
    LeaderStaysOk(n, n', c.term);
    AckFacts(s, c, k);
    AdvanceIsHeld(s, c, k);
    AcknowledgeStep(s, k);
    OpenOf(s, c);
    var s' := Step(s, Acknowledge(k));
    assert PeerOk(s.logs, n', n.log, k.resp.followerID);
    RetryOk(s.logs, c, n, k.resp);
    LeaderChanges(s, s', c);
  }

  lemma OpenOf(s: System, c: Reign)
    requires Inv(s, c)
    ensures c.leader in s.open
  {
  }

  lemma RetryOk(logs: map<nat, LogState>, c: Reign, n: LogState, resp: AppendResponse)
    requires Valid(n) && resp.matchIndex >= -1 && n.currentTerm == c.term && n.id == c.leader
    requires resp.followerID in logs && resp.followerID != c.leader
    requires var n' := HandleResponse(n, resp).state;
             && n'.log == n.log && c.start < |n.log| && n'.commitIndex < |n.log|
             && PeerOk(logs, n', n.log, resp.followerID)
    ensures var r := HandleResponse(n, resp);
            r.retry.Some? ==> LetterOk(logs.Keys, c, n.log, Outgoing(resp.followerID, r.retry.value))
  {
    hide RequestOk;
    HandleResponseKeeps(n, resp);
    var r := HandleResponse(n, resp);
    if r.retry.Some? {
      BuiltRequestOk(r.state, n.log, c, resp.followerID);
    }
  }

  lemma AdvanceIsHeld(s: System, c: Reign, k: Ack)
    requires Inv(s, c) && k in s.acks && k.dst == c.leader && CurrentAnswer(k.resp, c.term)
    requires Valid(s.logs[c.leader]) && k.resp.matchIndex >= -1
    ensures var n := s.logs[c.leader];
            var n' := HandleResponse(n, k.resp).state;
            n'.commitIndex == n.commitIndex || Held(s.logs, n.log, n'.commitIndex)
  {
    LeaderFacts(s, c);
    AcknowledgeNode(s, c, k);
    hide Inv, NodeOk, LeaderLog, HandleResponse, PeerOk, Held;
    var n := s.logs[c.leader];
    var n' := HandleResponse(n, k.resp).state;
    AdvanceIsCounted(n, k.resp);
    if n'.commitIndex > n.commitIndex {
      QuorumHolds(s.logs, c, n', n'.commitIndex);
    }
  }

  // ---------- applying and appending at the leader ----------

  lemma ConfirmNode(n: LogState, t: int)
    requires NodeOk(n, n.log, t)
    ensures CanApply(n)
    ensures var n' := ApplyCommitted(n);
            && n' == n.(lastApplied := n'.lastApplied, table := n'.table)
            && NodeOk(n', n.log, t) && n'.lastApplied == n.commitIndex
  {
    hide ApplyCommitted, Fold, Aligned;
    assert n.commitIndex < |n.log|;
    ApplyCommittedFolds(n);
  }

  /** A wait that ends well ends with its entry held by a majority: the commit index has moved past the
      start of the reign, so a quorum was counted for it. */
  lemma ConfirmIsHeld(s: System, c: Reign, e: LogEntry)
    requires Inv(s, c) && e in s.open[c.leader] && s.logs[c.leader].commitIndex >= e.index
    ensures EntryOk(c, s.logs[c.leader].log, e) && Held(s.logs, s.logs[c.leader].log, e.index)
  {
    hide LeaderLog, NodesOk, LetterOk, AckOk, PeerOk, Held, DoneOk;
    var n := s.logs[c.leader];
    assert EntryOk(c, n.log, e);
    HeldLess(s.logs, n.log, n.commitIndex, e.index);
  }

  lemma PeersSame(logs: map<nat, LogState>, n: LogState, n': LogState)
    requires forall p :: p in n.peers ==> PeerOk(logs, n, n.log, p)
    requires n'.nextIndex == n.nextIndex && n'.matchIndex == n.matchIndex && n'.log == n.log
    ensures forall p :: p in n.peers ==> PeerOk(logs, n', n.log, p)
  {
    forall p | p in n.peers ensures PeerOk(logs, n', n.log, p) {
      assert PeerOk(logs, n, n.log, p);
    }
  }

  lemma ConfirmKeeps(s: System, c: Reign, e: LogEntry)
    requires Inv(s, c) && Enabled(s, Confirm(c.leader, e))
    ensures Safe(s, Confirm(c.leader, e))
    ensures var s' := Step(s, Confirm(c.leader, e));
            Inv(s', c) && Later(s.logs, s.logs[c.leader].log, s'.logs, s'.logs[c.leader].log)
  {
    hide Inv, LeaderOk, NodeOk, LeaderLog, ApplyCommitted, Step, Later, Held, PeerOk, EntryOk;
    LeaderFacts(s, c);
    ConfirmIsHeld(s, c, e);
    var n := s.logs[c.leader];
    ConfirmNode(n, c.term);
    ConfirmStep(s, c.leader, e);
    PeersSame(s.logs, n, ApplyCommitted(n));
    LeaderChanges(s, Step(s, Confirm(c.leader, e)), c);
  }

  lemma LeaderLogGrows(l: seq<LogEntry>, t: int, start: nat, e: LogEntry)
    requires LeaderLog(l, t, start) && e.term == t
    ensures LeaderLog(l + [e], t, start)
  {
  }

  lemma NodeOkGrows(n: LogState, l: seq<LogEntry>, t: int, e: LogEntry)
    requires NodeOk(n, l, t) && e.term == t
    ensures NodeOk(n, l + [e], t) && NodeLater(n, l, n, l + [e])
  {
    F.MatchAfterAppend(n.log, l, e);
    SharesGrow(n.log, l, e);
  }

  lemma SharesGrow(a: seq<LogEntry>, l: seq<LogEntry>, e: LogEntry)
    ensures forall m :: Shares(a, l, m) ==> Shares(a, l + [e], m)
  {
    forall m | Shares(a, l, m) ensures Shares(a, l + [e], m) {
      assert (l + [e])[..m] == l[..m];
    }
  }

  lemma LeaderNodeGrows(n: LogState, t: int, start: nat, e: LogEntry)
    requires NodeOk(n, n.log, t) && LeaderLog(n.log, t, start) && e.term == t
    ensures var n' := LogModel.Append(n, e);
            NodeOk(n', n'.log, t) && NodeLater(n, n.log, n', n'.log)
  {
    var l' := n.log + [e];
    LeaderLogGrows(n.log, t, start, e);
    PrefixAligned(l', t, start, |l'|);
    assert l'[..|l'|] == l';
    PrefixShares(l', l');
    assert l'[..n.lastApplied + 1] == n.log[..n.lastApplied + 1];
    forall m | Shares(n.log, n.log, m) ensures Shares(l', l', m) {}
  }

  lemma WindowGrows(entries: seq<LogEntry>, l: seq<LogEntry>, l': seq<LogEntry>, from: int)
    requires l <= l' && Window(entries, l, from)
    ensures Window(entries, l', from) && from <= |l|
  {
  }

  lemma RequestOkGrows(req: AppendRequest, l: seq<LogEntry>, l': seq<LogEntry>, t: int, start: nat)
    requires RequestOk(req, l, t, start) && l <= l'
    ensures RequestOk(req, l', t, start)
  {
    hide Window;
    WindowGrows(req.entries, l, l', req.prevLogIndex + 1);
  }

  lemma NodesGrow(logs: map<nat, LogState>, c: Reign, e: LogEntry)
    requires c.leader in logs && NodesOk(logs, logs[c.leader].log, c.term) && e.term == c.term
    requires LeaderLog(logs[c.leader].log, c.term, c.start)
    ensures var n := logs[c.leader];
            var n' := LogModel.Append(n, e);
            NodesOk(logs[c.leader := n'], n'.log, c.term) && Later(logs, n.log, logs[c.leader := n'], n'.log)
  {
    hide NodeOk, LeaderLog, NodeLater;
    var n := logs[c.leader];
    var n' := LogModel.Append(n, e);
    var logs' := logs[c.leader := n'];
    LeaderNodeGrows(n, c.term, c.start, e);
    forall i | i in logs'
      ensures logs'[i].id == i && NodeOk(logs'[i], n'.log, c.term) && NodeLater(logs[i], n.log, logs'[i], n'.log)
    {
      if i != c.leader { NodeOkGrows(logs[i], n.log, c.term, e); }
    }
    assert logs'.Keys == logs.Keys;
  }

  lemma ProposeLater(s: System, c: Reign, e: LogEntry)
    requires Inv(s, c) && e.term == c.term
    ensures var n := s.logs[c.leader];
            var n' := LogModel.Append(n, e);
            var logs' := s.logs[c.leader := n'];
            && NodesOk(logs', n'.log, c.term) && Later(s.logs, n.log, logs', n'.log)
            && LeaderOk(n', c, logs'.Keys) && logs'.Keys == s.logs.Keys
  {
    hide LetterOk, AckOk, PeerOk, CallsOk, CommitOk, NodesOk, LeaderLog, Later;
    NodesGrow(s.logs, c, e);
    LeaderLogGrows(s.logs[c.leader].log, c.term, c.start, e);
    assert s.logs[c.leader := LogModel.Append(s.logs[c.leader], e)].Keys == s.logs.Keys;
  }

  lemma LettersGrow(s: System, c: Reign, e: LogEntry)
    requires Inv(s, c) && c.leader in s.logs
    ensures forall m :: m in s.letters ==> LetterOk(s.logs.Keys, c, s.logs[c.leader].log + [e], m)
  {
    hide LeaderOk, NodesOk, RequestOk, AckOk, PeerOk, CommitOk, CallsOk;
    var l := s.logs[c.leader].log;
    forall m | m in s.letters ensures LetterOk(s.logs.Keys, c, l + [e], m) {
      assert LetterOk(s.logs.Keys, c, l, m);
      RequestOkGrows(m.req, l, l + [e], c.term, c.start);
    }
  }

  /** The leader has appended entry e and is waiting for it. */
  ghost predicate Grown(s: System, s': System, c: Reign, e: LogEntry)
    requires c.leader in s.logs && c.leader in s.open
  {
    var n := s.logs[c.leader];
    && s' == s.(logs := s.logs[c.leader := LogModel.Append(n, e)], open := s.open[c.leader := s.open[c.leader] + {e}],
                canon := s'.canon)
    && e.term == c.term && e.index == |n.log|
  }

  lemma GrownKeeps(s: System, s': System, c: Reign, e: LogEntry)
    requires Inv(s, c) && c.leader in s.logs && c.leader in s.open && Grown(s, s', c, e)
    ensures Inv(s', c) && Later(s.logs, s.logs[c.leader].log, s'.logs, s'.logs[c.leader].log)
  {
    ProposeLater(s, c, e);
    LettersGrow(s, c, e);
    var l := s.logs[c.leader].log;
    assert c.start <= |l|;
    hide LeaderOk, NodesOk, NodeOk, LeaderLog, LetterOk, AckOk, PeerOk, Held, DoneOk, Later, CommitOk, CallsOk;
    assert EntryOk(c, l + [e], e);
    RestLater(s, s', c);
  }

  lemma ProposeKeeps(s: System, c: Reign, a: Action)
    requires Inv(s, c) && a.ProposeAt? && a.node == c.leader && Enabled(s, a)
    ensures var s' := Step(s, a);
            Inv(s', c) && Later(s.logs, s.logs[c.leader].log, s'.logs, s'.logs[c.leader].log)
  {
    hide Inv, Step, Later;
    LeaderFacts(s, c);
    OpenOf(s, c);
    ProposeStep(s, a);
    GrownKeeps(s, Step(s, a), c, NewEntry(s.logs[c.leader], a.change, a.key, a.value));
  }

  // ---------- every step, and every run ----------

  lemma StepKeeps(s: System, c: Reign, a: Action)
    requires Inv(s, c) && Enabled(s, a) && Allowed(a, c)
    ensures Safe(s, a) && c.leader in s.logs
    ensures var s' := Step(s, a);
            && Inv(s', c) && c.leader in s'.logs
            && Later(s.logs, s.logs[c.leader].log, s'.logs, s'.logs[c.leader].log)
  {
    hide Inv, Step, Later;
    LeaderFacts(s, c);
    match a {
      case Elect(_) => RestKeeps(s, c, a);
      case Notify(call) => NotifyKeeps(s, c, call);
      case ProposeAt(_, _, _, _) => ProposeKeeps(s, c, a);
      case SendAll(_) => SendKeeps(s, c, a);
      case Append(m) => AppendKeeps(s, c, m);
      case Acknowledge(k) => AcknowledgeKeeps(s, c, k);
      case Confirm(_, e) => ConfirmKeeps(s, c, e);
      case Finish(_) => SendKeeps(s, c, a);
      case _ => RestKeeps(s, c, a);
    }
    LeaderFacts(Step(s, a), c);
  }
}
