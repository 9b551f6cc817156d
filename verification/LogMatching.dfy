/** Log Matching across all terms and runs, as long as leaders append and send only at the helm. */
module LogMatching {
  import opened Types
  import opened Quorum
  import opened LogModel
  import opened LogFacts
  import opened Proposal
  import opened Ensemble
  import EC = ElectionCluster
  import ES = ElectionSafety
  import Leadership
  import F = Follower

  /** Every entry of the log agrees, with everything before it, with the log its term's leader had. */
  ghost predicate Fits(log: seq<LogEntry>, canon: map<int, seq<LogEntry>>) {
    forall k :: 0 <= k < |log| ==> FitsAt(log, canon, k)
  }

  ghost predicate FitsAt(log: seq<LogEntry>, canon: map<int, seq<LogEntry>>, k: int)
    requires 0 <= k < |log|
  {
    var t := log[k].term;
    t in canon && k < |canon[t]| && log[..k + 1] == canon[t][..k + 1] && log[k].index == k
  }

  lemma FitsMatch(a: seq<LogEntry>, b: seq<LogEntry>, canon: map<int, seq<LogEntry>>)
    requires Fits(a, canon) && Fits(b, canon)
    ensures Match(a, b)
  {
    forall k | 0 <= k < |a| && k < |b| && a[k].term == b[k].term ensures a[..k + 1] == b[..k + 1] {
      assert FitsAt(a, canon, k) && FitsAt(b, canon, k);
    }
  }

  lemma FitsIndexed(log: seq<LogEntry>, canon: map<int, seq<LogEntry>>)
    requires Fits(log, canon)
    ensures forall k :: 0 <= k < |log| ==> log[k].index == k
  {
    forall k | 0 <= k < |log| ensures log[k].index == k {
      assert FitsAt(log, canon, k);
    }
  }

  lemma FitsPrefix(a: seq<LogEntry>, canon: map<int, seq<LogEntry>>, n: nat)
    requires Fits(a, canon) && n <= |a|
    ensures Fits(a[..n], canon)
  {
    forall k | 0 <= k < n ensures FitsAt(a[..n], canon, k) {
      assert FitsAt(a, canon, k);
      assert a[..n][..k + 1] == a[..k + 1];
    }
  }

  /** Appending to the log a term's leader has keeps everything that fitted fitting. */
  lemma FitsAfterAppend(a: seq<LogEntry>, canon: map<int, seq<LogEntry>>, log: seq<LogEntry>, e: LogEntry)
    requires Fits(a, canon) && (e.term in canon ==> canon[e.term] == log)
    ensures Fits(a, canon[e.term := log + [e]])
  {
    var canon' := canon[e.term := log + [e]];
    forall k | 0 <= k < |a| ensures FitsAt(a, canon', k) {
      assert FitsAt(a, canon, k);
      if a[k].term == e.term {
        assert (log + [e])[..k + 1] == log[..k + 1];
      }
    }
  }

  lemma FitsExtended(log: seq<LogEntry>, canon: map<int, seq<LogEntry>>, e: LogEntry)
    requires Fits(log, canon) && e.term in canon && canon[e.term] == log + [e] && e.index == |log|
    ensures Fits(log + [e], canon)
  {
    var a := log + [e];
    forall k | 0 <= k < |a| ensures FitsAt(a, canon, k) {
      if k < |log| {
        assert FitsAt(log, canon, k);
        assert a[..k + 1] == log[..k + 1];
      }
    }
  }

  // ---------- the invariant ----------

  /** Has node i been told that it leads this term? */
  ghost predicate Led(told: set<EC.Call>, i: nat, term: int) {
    EC.LeaderCall(i, term) in told
  }

  ghost predicate SomeoneLed(told: set<EC.Call>, term: int) {
    exists i :: Led(told, i, term)
  }

  ghost predicate AnotherLed(told: set<EC.Call>, i: nat, term: int) {
    exists j :: j != i && Led(told, j, term)
  }

  function Told(s: System): set<EC.Call> {
    s.election.history.finished
  }

  ghost predicate NodeWired(s: System, i: nat)
    requires i in s.logs
  {
    && s.logs[i].id == i && Valid(s.logs[i])
    && Distinct(s.logs[i].peers) && Members(s.logs[i].peers) == s.logs.Keys - {i}
  }

  ghost predicate Wired(s: System) {
    && s.logs.Keys == s.election.nodes.Keys == s.open.Keys
    && forall i :: i in s.logs ==> NodeWired(s, i)
  }

  ghost predicate LogsFit(s: System) {
    forall i :: i in s.logs ==> Fits(s.logs[i].log, s.canon)
  }

  ghost predicate CanonSound(canon: map<int, seq<LogEntry>>, told: set<EC.Call>) {
    forall t :: t in canon ==> t >= 1 && Fits(canon[t], canon) && SomeoneLed(told, t)
  }

  /** What precedes the entries of a request in its sender's log. */
  function Base(canon: map<int, seq<LogEntry>>, req: AppendRequest): seq<LogEntry> {
    if 0 <= req.prevLogIndex && req.prevLogTerm in canon && req.prevLogIndex < |canon[req.prevLogTerm]|
    then canon[req.prevLogTerm][..req.prevLogIndex + 1]
    else []
  }

  ghost predicate RequestFits(canon: map<int, seq<LogEntry>>, req: AppendRequest) {
    && req.prevLogIndex >= -1
    && ((req.prevLogIndex >= 0 && req.prevLogTerm == -1 && req.entries == [])
        || (|Base(canon, req)| == req.prevLogIndex + 1 && Fits(Base(canon, req) + req.entries, canon)))
  }

  ghost predicate LetterSound(canon: map<int, seq<LogEntry>>, told: set<EC.Call>, l: Outgoing) {
    RequestFits(canon, l.req) && Led(told, l.req.leaderID, l.req.term) && l.req.leaderID != l.dst
  }

  ghost predicate LettersSound(s: System) {
    forall l :: l in s.letters ==> LetterSound(s.canon, Told(s), l)
  }

  ghost predicate AckSound(all: set<nat>, k: Ack) {
    k.resp.matchIndex >= -1 && k.resp.followerID in all && k.resp.followerID != k.dst
  }

  ghost predicate AcksSound(s: System) {
    forall k :: k in s.acks ==> AckSound(s.logs.Keys, k)
  }

  function LedTerm(led: map<nat, int>, i: nat): Option<int> {
    if i in led then Some(led[i]) else None
  }

  /** A leader still in the term it was given holds that term's canonical log; a leader in any other
      term was overtaken by another node. */
  ghost predicate HelmSound(canon: map<int, seq<LogEntry>>, told: set<EC.Call>, i: nat, n: LogState, led: Option<int>) {
    && (led.Some? ==> Led(told, i, led.value))
    && (n.isLeader ==>
          && led.Some?
          && n.currentTerm >= led.value
          && (n.currentTerm == led.value && led.value in canon ==> canon[led.value] == n.log)
          && (n.currentTerm > led.value ==> AnotherLed(told, i, n.currentTerm)))
  }

  ghost predicate HelmsSound(s: System) {
    forall i :: i in s.logs ==> HelmSound(s.canon, Told(s), i, s.logs[i], LedTerm(s.led, i))
  }

  ghost predicate Inv(s: System) {
    && Leadership.Known(s.election)
    && Wired(s) && LogsFit(s) && CanonSound(s.canon, Told(s)) && LettersSound(s) && AcksSound(s) && HelmsSound(s)
  }

  // ---------- the network side of one request ----------

  /** What a leader whose log fits sends fits. */
  lemma BuiltRequestFits(n: LogState, canon: map<int, seq<LogEntry>>, to: nat)
    requires Valid(n) && Fits(n.log, canon)
    ensures RequestFits(canon, BuildRequest(n, to))
  {
    var req := BuildRequest(n, to);
    var prev := req.prevLogIndex;
    if prev < |n.log| {
      if prev >= 0 {
        assert FitsAt(n.log, canon, prev);
      }
      assert Base(canon, req) == n.log[..prev + 1];
      assert Base(canon, req) + req.entries == n.log;
    }
  }

  /** Handling a request that fits keeps a log fitting, whichever way the handler goes. */
  lemma HandledLogFits(n: LogState, canon: map<int, seq<LogEntry>>, req: AppendRequest)
    requires Valid(n) && Fits(n.log, canon) && RequestFits(canon, req) && -1 !in canon
    ensures Fits(HandleAppendEntries(n, req).state.log, canon)
  {
    F.HandleShape(n, req);
    if F.Accepts(n, req) {
      var sent := Base(canon, req) + req.entries;
      var at := req.prevLogIndex + 1;
      if req.prevLogIndex >= 0 {
        assert FitsAt(n.log, canon, req.prevLogIndex);
      }
      FitsMatch(n.log, sent, canon);
      assert sent[..at] == Base(canon, req) && sent[at..] == req.entries;
      MergeTail(n.log, sent, at);
    } else if req.term >= n.currentTerm && req.prevLogIndex < |n.log| {
      FitsPrefix(n.log, canon, req.prevLogIndex);
    }
  }

  // ---------- preservation ----------

  lemma FreshIsSound(s: System)
    requires Fresh(s)
    ensures Inv(s)
  {
    hide Leadership.Known;
    Leadership.FreshIsKnown(s.election);
  }

  /** Told facts are never untold. */
  lemma ToldGrows(s: System, s': System)
    requires CanonSound(s.canon, Told(s)) && LettersSound(s) && HelmsSound(s)
    requires Told(s) <= Told(s') && s'.canon == s.canon
    ensures CanonSound(s.canon, Told(s'))
    ensures forall l :: l in s.letters ==> LetterSound(s.canon, Told(s'), l)
    ensures forall i :: i in s.logs ==> HelmSound(s.canon, Told(s'), i, s.logs[i], LedTerm(s.led, i))
  {
    hide Fits, RequestFits;
    forall t | t in s.canon ensures SomeoneLed(Told(s'), t) {
      var i :| Led(Told(s), i, t);
      assert Led(Told(s'), i, t);
    }
    forall i, term | AnotherLed(Told(s), i, term) ensures AnotherLed(Told(s'), i, term) {
      var j :| j != i && Led(Told(s), j, term);
      assert Led(Told(s'), j, term);
    }
  }

  lemma ElectKeeps(s: System, step: EC.Action)
    requires Inv(s) && Enabled(s, Elect(step))
    ensures Inv(Step(s, Elect(step)))
  {
    hide Leadership.Known, EC.Step, EC.Enabled, Fits, LetterSound, HelmSound, CanonSound;
    Leadership.StepKeepsKnown(s.election, step);
    Leadership.StepGrows(s.election, step);
    Leadership.StepCalls(s.election, step);
  }

  /** Running a callback changes nothing in the election but which callbacks have run. */
  lemma RunCallStep(c: EC.Cluster, call: EC.Call)
    requires Leadership.Known(c) && call in c.calls
    ensures EC.Enabled(c, EC.RunCall(call))
    ensures var c' := EC.Step(c, EC.RunCall(call));
            && Leadership.Known(c') && c'.nodes == c.nodes
            && c'.history.finished == c.history.finished + {call}
  {
    hide Leadership.Known;
    Leadership.StepKeepsKnown(c, EC.RunCall(call));
  }

  /** A term whose BecomeLeader has not run yet has no entries. */
  lemma TermStillEmpty(s: System, i: nat, term: int)
    requires Leadership.Known(s.election) && CanonSound(s.canon, Told(s))
    requires EC.LeaderCall(i, term) in s.election.calls
    ensures term !in s.canon
  {
    hide ES.Inv, Fits;
    var c := s.election;
    assert Leadership.Runs(c, EC.LeaderCall(i, term)) <= 1;
    if term in s.canon {
      var j :| Led(Told(s), j, term);
      assert Leadership.CallSound(c, EC.LeaderCall(j, term));
      assert Leadership.CallSound(c, EC.LeaderCall(i, term));
      ES.WinnerIsUnique(c, EC.Ballot(term, i), EC.Ballot(term, j));
      assert false;
    }
  }

  lemma CallbackStep(s: System, call: EC.Call)
    requires Leadership.Known(s.election) && Enabled(s, Notify(call))
    ensures var s' := Step(s, Notify(call));
            && s' == s.(election := s'.election, logs := s.logs[call.node := Notified(s.logs[call.node], call)],
                        led := if call.LeaderCall? then s.led[call.node := call.term] else s.led)
            && Leadership.Known(s'.election) && s'.election.nodes == s.election.nodes
            && Told(s') == Told(s) + {call}
  {
    hide Leadership.Known, Step;
    NotifyStep(s, call);
    RunCallStep(s.election, call);
  }

  lemma NotifiedNode(n: LogState, call: EC.Call)
    requires Valid(n)
    ensures var n' := Notified(n, call);
            n'.id == n.id && n'.peers == n.peers && n'.log == n.log && Valid(n')
  {
    if call.LeaderCall? {
      BecomeLeaderKeepsValid(n, call.term);
    }
  }

  lemma CallIsNews(s: System, call: EC.Call)
    requires Inv(s) && Enabled(s, Notify(call))
    ensures Valid(s.logs[call.node]) && (call.LeaderCall? ==> call.term !in s.canon)
  {
    assert NodeWired(s, call.node);
    hide Leadership.Known, HelmsSound, LettersSound, LogsFit, CanonSound;
    if call.LeaderCall? {
      TermStillEmpty(s, call.node, call.term);
    }
  }

  /** Callbacks may run as late as they like: a node that is told to lead starts a term nobody has
      written in, and one that is told to follow stops claiming anything. */
  lemma NotifiedHelms(s: System, s': System, call: EC.Call)
    requires HelmsSound(s) && call.node in s.logs && s'.canon == s.canon
    requires s'.logs == s.logs[call.node := Notified(s.logs[call.node], call)]
    requires s'.led == if call.LeaderCall? then s.led[call.node := call.term] else s.led
    requires CanonSound(s.canon, Told(s)) && LettersSound(s)
    requires Told(s') == Told(s) + {call}
    requires call.LeaderCall? ==> call.term !in s.canon
    ensures HelmsSound(s')
  {
    hide LettersSound, CanonSound;
    ToldGrows(s, s');
    assert call.LeaderCall? ==> Led(Told(s'), call.node, call.term);
  }

  lemma NotifyKeeps(s: System, call: EC.Call)
    requires Inv(s) && Enabled(s, Notify(call))
    ensures Inv(Step(s, Notify(call)))
  {
    hide Leadership.Known, Step, Notified, Fits, LetterSound, HelmsSound, CanonSound;
    var s' := Step(s, Notify(call));
    CallbackStep(s, call);
    CallIsNews(s, call);
    NotifiedNode(s.logs[call.node], call);
    ToldGrows(s, s');
    NotifiedHelms(s, s', call);
  }

  lemma RequestFitsAfterAppend(canon: map<int, seq<LogEntry>>, req: AppendRequest, log: seq<LogEntry>, e: LogEntry)
    requires RequestFits(canon, req) && (e.term in canon ==> canon[e.term] == log)
    ensures RequestFits(canon[e.term := log + [e]], req)
  {
    var canon' := canon[e.term := log + [e]];
    if !(req.prevLogIndex >= 0 && req.prevLogTerm == -1 && req.entries == []) {
      assert Base(canon', req) == Base(canon, req);
      FitsAfterAppend(Base(canon, req) + req.entries, canon, log, e);
    }
  }

  lemma SameTermSameLeader(s: System, i: nat, j: nat, term: int)
    requires Leadership.Known(s.election) && Led(Told(s), i, term) && Led(Told(s), j, term)
    ensures i == j && term >= 1
  {
    hide ES.OneTicket, ES.NetSound, ES.VotesKept, ES.Shape;
    var c := s.election;
    assert Leadership.CallSound(c, EC.LeaderCall(i, term)) && Leadership.CallSound(c, EC.LeaderCall(j, term));
    ES.WinnerIsUnique(c, EC.Ballot(term, i), EC.Ballot(term, j));
  }

  /** Only the leader of a term extends that term's canonical log, so nobody else's claim is disturbed. */
  lemma ProposeKeepsHelms(s: System, a: Action)
    requires Inv(s) && a.ProposeAt? && Enabled(s, a) && Guarded(s, a)
    ensures HelmsSound(Step(s, a))
  {
    hide LogsFit, LettersSound, Wired, Leadership.Known, Fits;
    var s' := Step(s, a);
    var term := s.logs[a.node].currentTerm;
    forall i | i in s'.logs ensures HelmSound(s'.canon, Told(s'), i, s'.logs[i], LedTerm(s'.led, i)) {
      if i != a.node && i in s.led && s.led[i] == term {
        SameTermSameLeader(s, i, a.node, term);
      }
    }
  }

  lemma ProposeKeepsCanon(s: System, a: Action)
    requires Inv(s) && a.ProposeAt? && Enabled(s, a) && Guarded(s, a)
    ensures var s' := Step(s, a); LogsFit(s') && CanonSound(s'.canon, Told(s')) && LettersSound(s')
  {
    hide Leadership.Known, Fits, RequestFits, Wired;
    var s' := Step(s, a);
    var i := a.node;
    var log, e := s.logs[i].log, NewEntry(s.logs[i], a.change, a.key, a.value);
    assert HelmSound(s.canon, Told(s), i, s.logs[i], LedTerm(s.led, i));
    SameTermSameLeader(s, i, i, e.term);
    hide HelmsSound, HelmSound;
    forall j | j in s'.logs ensures Fits(s'.logs[j].log, s'.canon) {
      FitsAfterAppend(s.logs[j].log, s.canon, log, e);
      if j == i { FitsExtended(log, s'.canon, e); }
    }
    forall l | l in s'.letters ensures LetterSound(s'.canon, Told(s'), l) {
      assert LetterSound(s.canon, Told(s), l);
      RequestFitsAfterAppend(s.canon, l.req, log, e);
    }
    forall t | t in s'.canon ensures t >= 1 && Fits(s'.canon[t], s'.canon) && SomeoneLed(Told(s'), t) {
      if t == e.term {
        assert Fits(s'.logs[i].log, s'.canon);
      } else {
        FitsAfterAppend(s.canon[t], s.canon, log, e);
      }
    }
  }

  lemma ProposeKeeps(s: System, a: Action)
    requires Inv(s) && a.ProposeAt? && Enabled(s, a) && Guarded(s, a)
    ensures Inv(Step(s, a))
  {
    hide Leadership.Known, LogsFit, HelmsSound, CanonSound, LettersSound;
    ProposeKeepsHelms(s, a);
    ProposeKeepsCanon(s, a);
  }

  lemma NodeChanges(s: System, s': System, i: nat)
    requires Wired(s) && LogsFit(s) && HelmsSound(s)
    requires i in s.logs && i in s'.logs && s'.logs == s.logs[i := s'.logs[i]]
    requires s'.canon == s.canon && s'.led == s.led && s'.election == s.election && s'.open.Keys == s.open.Keys
    requires NodeSound(s, i, s'.logs[i])
    ensures Wired(s') && LogsFit(s') && HelmsSound(s')
  {
    hide Fits, HelmSound;
    assert s'.logs.Keys == s.logs.Keys;
    forall j | j in s'.logs ensures NodeWired(s', j) {
      assert NodeWired(s, j);
    }
  }

  /** A request reaching a leader at the helm is either stale, and ignored, or from a later term's leader. */
  lemma OvertakenOrUnchanged(s: System, l: Outgoing)
    requires Inv(s) && l in s.letters && l.dst in s.logs && Valid(s.logs[l.dst]) && l.req.prevLogIndex >= -1
    ensures HelmSound(s.canon, Told(s), l.dst, HandleAppendEntries(s.logs[l.dst], l.req).state, LedTerm(s.led, l.dst))
  {
    assert LetterSound(s.canon, Told(s), l);
    NodeParts(s, l.dst);
    hide HandleAppendEntries, Fits, RequestFits, Inv;
    var i := l.dst;
    F.HandleShape(s.logs[i], l.req);
    if i in s.led && l.req.term == s.led[i] {
      SameTermSameLeader(s, i, l.req.leaderID, l.req.term);
    }
  }

  /** What a node's change must satisfy for the whole system to stay sound. */
  ghost predicate NodeSound(s: System, i: nat, n: LogState)
    requires i in s.logs
  {
    && n.id == s.logs[i].id && n.peers == s.logs[i].peers && Valid(n)
    && Fits(n.log, s.canon)
    && HelmSound(s.canon, Told(s), i, n, LedTerm(s.led, i))
  }

  lemma AppendNode(s: System, l: Outgoing)
    requires Inv(s) && l in s.letters && l.dst in s.logs
    ensures l.req.prevLogIndex >= -1 && Valid(s.logs[l.dst])
    ensures var r := HandleAppendEntries(s.logs[l.dst], l.req);
            && NodeSound(s, l.dst, r.state)
            && AckSound(s.logs.Keys, Ack(l.req.leaderID, r.resp))
  {
    assert LetterSound(s.canon, Told(s), l) && NodeWired(s, l.dst);
    LogFitsAt(s, l.dst);
    CanonTermsPositive(s);
    hide Leadership.Known, Fits, HandleAppendEntries, HelmsSound, HelmSound, CanonSound, Wired, LogsFit, LettersSound;
    F.HandleShape(s.logs[l.dst], l.req);
    HandledLogFits(s.logs[l.dst], s.canon, l.req);
    OvertakenOrUnchanged(s, l);
  }

  /** Changing one node soundly, with sound letters and acknowledgements, keeps the system sound. */
  lemma SystemChanges(s: System, s': System, i: nat)
    requires Inv(s)
    requires i in s.logs && i in s'.logs && s'.logs == s.logs[i := s'.logs[i]]
    requires s'.canon == s.canon && s'.led == s.led && s'.election == s.election && s'.open.Keys == s.open.Keys
    requires NodeSound(s, i, s'.logs[i])
    requires forall l :: l in s'.letters && l !in s.letters ==> LetterSound(s.canon, Told(s), l)
    requires forall k :: k in s'.acks && k !in s.acks ==> AckSound(s.logs.Keys, k)
    ensures Inv(s')
  {
    hide Leadership.Known, LetterSound, HelmsSound, NodeSound, CanonSound, Wired, LogsFit;
    NodeChanges(s, s', i);
  }

  lemma AppendKeeps(s: System, l: Outgoing)
    requires Inv(s) && Enabled(s, Ensemble.Append(l))
    ensures Safe(s, Ensemble.Append(l)) && Inv(Step(s, Ensemble.Append(l)))
  {
    hide Inv, HandleAppendEntries, NodeSound, LetterSound, Step;
    AppendNode(s, l);
    AppendStep(s, l);
    SystemChanges(s, Step(s, Ensemble.Append(l)), l.dst);
  }

  lemma SendNode(s: System, i: nat)
    requires Inv(s) && i in s.logs && AtHelm(s, i)
    ensures Valid(s.logs[i]) && NodeSound(s, i, s.logs[i])
    ensures forall l :: l in Broadcast(s.logs[i]) ==> LetterSound(s.canon, Told(s), l)
  {
    assert HelmSound(s.canon, Told(s), i, s.logs[i], LedTerm(s.led, i)) && NodeWired(s, i);
    LogFitsAt(s, i);
    hide Leadership.Known, Fits, RequestFits, CanonSound, HelmsSound, Wired, LogsFit, LettersSound;
    forall l | l in Broadcast(s.logs[i]) ensures LetterSound(s.canon, Told(s), l) {
      assert l.dst in Members(s.logs[i].peers);
      BuiltRequestFits(s.logs[i], s.canon, l.dst);
    }
  }

  lemma SendKeeps(s: System, a: Action, i: nat)
    requires Inv(s) && Enabled(s, a) && (a == SendAll(i) || (a.Finish? && a.receipt.node == i)) && AtHelm(s, i)
    ensures Safe(s, a) && Inv(Step(s, a))
  {
    hide Inv, NodeSound, LetterSound, Step;
    SendNode(s, i);
    SendStep(s, a, i);
    assert s.logs[i := s.logs[i]] == s.logs;
    SystemChanges(s, Step(s, a), i);
  }

  lemma LogFitsAt(s: System, i: nat)
    requires LogsFit(s) && i in s.logs
    ensures Fits(s.logs[i].log, s.canon)
  {
  }

  lemma CanonTermsPositive(s: System)
    requires CanonSound(s.canon, Told(s))
    ensures -1 !in s.canon
  {
  }

  lemma ResponseRole(n: LogState, resp: AppendResponse)
    requires Valid(n) && resp.matchIndex >= -1
    ensures var r := HandleResponse(n, resp);
            && (r.state.isLeader ==> n.isLeader && r.state.currentTerm == n.currentTerm)
            && Valid(r.state)
            && (r.retry.Some? ==> r.retry.value == BuildRequest(r.state, resp.followerID) && !resp.success
                                  && r.state.currentTerm == n.currentTerm >= resp.term)
  {
    HandleResponseKeeps(n, resp);
  }

  /** What the invariant says about one node. */
  lemma NodeParts(s: System, i: nat)
    requires Inv(s) && i in s.logs
    ensures HelmSound(s.canon, Told(s), i, s.logs[i], LedTerm(s.led, i))
    ensures NodeWired(s, i) && Fits(s.logs[i].log, s.canon)
    ensures Valid(s.logs[i])
  {
    hide Leadership.Known, Fits, CanonSound, LettersSound, HelmSound, AcksSound;
    assert NodeWired(s, i);
  }

  lemma AckParts(s: System, k: Ack)
    requires Inv(s) && k in s.acks && k.dst in s.logs
    ensures k.resp.matchIndex >= -1 && k.resp.followerID != k.dst
  {
    hide Leadership.Known, Fits, CanonSound, LettersSound, HelmSound, LogsFit, HelmsSound;
  }

  /** A node that keeps its log, and its leadership at most, stays sound. */
  lemma QuietNode(s: System, i: nat, n: LogState)
    requires Inv(s) && i in s.logs
    requires n.id == s.logs[i].id && n.peers == s.logs[i].peers && Valid(n) && n.log == s.logs[i].log
    requires n.isLeader ==> s.logs[i].isLeader && n.currentTerm == s.logs[i].currentTerm
    ensures NodeSound(s, i, n)
  {
    NodeParts(s, i);
    hide Inv, Fits;
  }

  lemma AcknowledgeNode(s: System, k: Ack)
    requires Inv(s) && k in s.acks && k.dst in s.logs
    ensures k.resp.matchIndex >= -1 && k.resp.followerID != k.dst && Valid(s.logs[k.dst])
    ensures var r := HandleResponse(s.logs[k.dst], k.resp);
            && NodeSound(s, k.dst, r.state)
            && (r.retry.Some? && AtHelm(s, k.dst) ==>
                  LetterSound(s.canon, Told(s), Outgoing(k.resp.followerID, r.retry.value)))
  {
    NodeParts(s, k.dst);
    AckParts(s, k);
    hide Inv, Fits, RequestFits, HandleResponse, NodeSound;
    HandleResponseKeeps(s.logs[k.dst], k.resp);
    ResponseRole(s.logs[k.dst], k.resp);
    QuietNode(s, k.dst, HandleResponse(s.logs[k.dst], k.resp).state);
    BuiltRequestFits(HandleResponse(s.logs[k.dst], k.resp).state, s.canon, k.resp.followerID);
  }

  lemma AcknowledgeKeeps(s: System, k: Ack)
    requires Inv(s) && Enabled(s, Acknowledge(k)) && Guarded(s, Acknowledge(k))
    ensures Safe(s, Acknowledge(k)) && Inv(Step(s, Acknowledge(k)))
  {
    hide Inv, HandleResponse, NodeSound, LetterSound, Step;
    AcknowledgeNode(s, k);
    AcknowledgeStep(s, k);
    ResponseRole(s.logs[k.dst], k.resp);
    SystemChanges(s, Step(s, Acknowledge(k)), k.dst);
  }

  lemma ConfirmNode(s: System, i: nat)
    requires Inv(s) && i in s.logs && CanApply(s.logs[i])
    ensures NodeSound(s, i, ApplyCommitted(s.logs[i]))
  {
    NodeParts(s, i);
    hide Inv, ApplyCommitted, NodeSound;
    ApplyCommittedFolds(s.logs[i]);
    QuietNode(s, i, ApplyCommitted(s.logs[i]));
  }

  lemma ConfirmKeeps(s: System, i: nat, e: LogEntry)
    requires Inv(s) && Enabled(s, Confirm(i, e)) && Safe(s, Confirm(i, e))
    ensures Inv(Step(s, Confirm(i, e)))
  {
    hide Inv, NodeSound, LetterSound, ApplyCommitted, Step;
    ConfirmNode(s, i);
    ConfirmStep(s, i, e);
    SystemChanges(s, Step(s, Confirm(i, e)), i);
  }

  /** Losing things and giving up changes no node. */
  lemma LossKeeps(s: System, s': System)
    requires Inv(s) && s' == s.(letters := s'.letters, acks := s'.acks, open := s'.open)
    requires s'.letters <= s.letters && s'.acks <= s.acks && s'.open.Keys == s.open.Keys
    ensures Inv(s')
  {
    hide Leadership.Known, LetterSound, CanonSound, HelmSound, NodeWired, Fits;
    forall i | i in s'.logs ensures NodeWired(s', i) {
      SameWiring(s, s', i);
    }
  }

  lemma SameWiring(s: System, s': System, i: nat)
    requires i in s.logs && NodeWired(s, i) && s'.logs == s.logs
    ensures NodeWired(s', i)
  {
  }

  lemma RestKeeps(s: System, a: Action)
    requires Inv(s) && Enabled(s, a) && Safe(s, a) && (a.GiveUp? || a.LoseLetter? || a.LoseAck?)
    ensures Inv(Step(s, a))
  {
    hide Inv, Step;
    RestStep(s, a);
    LossKeeps(s, Step(s, a));
  }

  /** Every guarded action keeps the invariant; the two preconditions the handlers rely on hold by themselves. */
  lemma StepKeeps(s: System, a: Action)
    requires Inv(s) && Enabled(s, a) && Guarded(s, a) && Safe(s, a)
    ensures Inv(Step(s, a))
  {
    hide Inv, Step;
    match a
    case Elect(step) => ElectKeeps(s, step);
    case Notify(call) => NotifyKeeps(s, call);
    case ProposeAt(_, _, _, _) => ProposeKeeps(s, a);
    case SendAll(i) => SendKeeps(s, a, i);
    case Finish(r) => SendKeeps(s, a, r.node);
    case Append(l) => AppendKeeps(s, l);
    case Acknowledge(k) => AcknowledgeKeeps(s, k);
    case Confirm(i, e) => ConfirmKeeps(s, i, e);
    case _ => RestKeeps(s, a);
  }

  lemma {:induction false} RunKeeps(s: System, run: seq<Action>)
    requires Inv(s) && Possible(s, run) && GuardedRun(s, run)
    ensures Inv(Exec(s, run))
    decreases |run|
  {
    hide Inv, Step, Enabled, Safe, Guarded;
    if run != [] {
      StepKeeps(s, run[0]);
      RunKeeps(Step(s, run[0]), run[1..]);
    }
  }

  /** System e is where a run leads that starts with freshly built nodes and keeps to the guard. */
  ghost predicate Reached(s: System, run: seq<Action>, e: System) {
    Fresh(s) && Possible(s, run) && GuardedRun(s, run) && e == Exec(s, run)
  }

  lemma ReachedIsSound(s: System, run: seq<Action>, e: System)
    requires Reached(s, run, e)
    ensures Inv(e)
  {
    hide Inv;
    FreshIsSound(s);
    RunKeeps(s, run);
  }

  /** Applying what is committed is the only thing that can index a log out of range. */
  lemma OnlyApplyingCanFail(s: System, run: seq<Action>, e: System, a: Action)
    requires Reached(s, run, e) && Enabled(e, a) && Guarded(e, a)
    ensures Safe(e, a) <==>
            (a.Confirm? && e.logs[a.proposer].lastApplied < e.logs[a.proposer].commitIndex ==>
               e.logs[a.proposer].commitIndex < |e.logs[a.proposer].log|)
  {
    hide Reached, Inv, Step;
    ReachedIsSound(s, run, e);
    match a {
      case SendAll(i) => SendKeeps(e, a, i);
      case Finish(r) => SendKeeps(e, a, r.node);
      case Append(l) => AppendKeeps(e, l);
      case Acknowledge(k) => AcknowledgeKeeps(e, k);
      case Confirm(i, _) => NodeParts(e, i);
      case _ =>
    }
  }

  /** Log Matching: in every run in which leaders append and send only at the helm, two logs that hold
      an entry of the same index and term are equal up to and including it, whatever was lost or
      reordered and however late callbacks ran; and an entry's index is its position. */
  lemma LogMatching(s: System, run: seq<Action>, e: System, i: nat, j: nat)
    requires Reached(s, run, e) && i in e.logs && j in e.logs
    ensures Match(e.logs[i].log, e.logs[j].log)
    ensures forall k :: 0 <= k < |e.logs[i].log| ==> e.logs[i].log[k].index == k
  {
    hide Reached, Fits, CanonSound, HelmsSound, LettersSound, Leadership.Known;
    ReachedIsSound(s, run, e);
    FitsMatch(e.logs[i].log, e.logs[j].log, e.canon);
    FitsIndexed(e.logs[i].log, e.canon);
  }

  /** The guard is exactly what keeps terms and leaders together: a node that passes the program's own
      check is the winner of the term it would write into its entry if and only if it is at the helm. */
  lemma OwnsItsTermIff(s: System, run: seq<Action>, e: System, i: nat)
    requires Reached(s, run, e) && i in e.logs && e.logs[i].isLeader
    ensures EC.Ballot(e.logs[i].currentTerm, i) in e.election.history.won <==> AtHelm(e, i)
  {
    hide Reached, Fits, CanonSound, LettersSound, ES.Inv;
    ReachedIsSound(s, run, e);
    var n := e.logs[i];
    assert HelmSound(e.canon, Told(e), i, n, LedTerm(e.led, i));
    assert Leadership.CallSound(e.election, EC.LeaderCall(i, e.led[i]));
    if n.currentTerm > e.led[i] && EC.Ballot(n.currentTerm, i) in e.election.history.won {
      var j :| j != i && Led(Told(e), j, n.currentTerm);
      assert Leadership.CallSound(e.election, EC.LeaderCall(j, n.currentTerm));
      ES.WinnerIsUnique(e.election, EC.Ballot(n.currentTerm, i), EC.Ballot(n.currentTerm, j));
    }
  }
}
