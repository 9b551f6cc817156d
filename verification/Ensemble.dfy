/** The coordinators together: the election cluster, every node's replicated log, and the messages
    between the logs. One action is one critical section of the program. */
module Ensemble {
  import opened Types
  import opened LogModel
  import opened Proposal
  import EC = ElectionCluster

  /** An answer on its way to the node that asked. */
  datatype Ack = Ack(dst: nat, resp: AppendResponse)

  /** A ProposeEntry call of a node, named by the entry it appended. */
  datatype Receipt = Receipt(node: nat, entry: LogEntry)

  /** A ProposeEntry call moves from `open`, where it waits for a majority, over `finishing`, where its
      last broadcast is still to come, to `receipts`, where it has returned true. The last two fields only
      record: the term of each node's latest BecomeLeader call, and for each term the log right after the
      latest append of an entry of that term. */
  datatype System = System(
    election: EC.Cluster,
    logs: map<nat, LogState>,
    letters: multiset<Outgoing>,
    acks: multiset<Ack>,
    open: map<nat, set<LogEntry>>,
    finishing: set<Receipt>,
    receipts: set<Receipt>,
    led: map<nat, int>,
    canon: map<int, seq<LogEntry>>)

  datatype Action =
    | Elect(step: EC.Action)
    | Notify(call: EC.Call)
    | ProposeAt(node: nat, change: ChangeType, key: string, value: string)
    | SendAll(sender: nat)
    | Append(letter: Outgoing)
    | Acknowledge(ack: Ack)
    | Confirm(proposer: nat, entry: LogEntry)
    | Finish(receipt: Receipt)
    | GiveUp(quitter: nat, dropped: LogEntry)
    | LoseLetter(lostLetter: Outgoing)
    | LoseAck(lostAck: Ack)

  predicate Enabled(s: System, a: Action) {
    match a
    case Elect(step) => !step.RunCall? && EC.Enabled(s.election, step)
    case Notify(call) => call in s.election.calls && call.node in s.logs
    case ProposeAt(i, _, _, _) => i in s.logs && i in s.open && s.logs[i].isLeader
    case SendAll(i) => i in s.logs && i in s.open && s.open[i] != {}
    case Append(l) => l in s.letters && l.dst in s.logs
    case Acknowledge(k) => k in s.acks && k.dst in s.logs && k.dst in s.open && s.open[k.dst] != {}
    case Confirm(i, e) => i in s.logs && i in s.open && e in s.open[i] && s.logs[i].commitIndex >= e.index
    case Finish(r) => r in s.finishing && r.node in s.logs
    case GiveUp(i, e) => i in s.open && e in s.open[i]
    case LoseLetter(l) => l in s.letters
    case LoseAck(k) => k in s.acks
  }

  /** The program does not check these; it fails without them. */
  ghost predicate Safe(s: System, a: Action)
    requires Enabled(s, a)
  {
    match a
    case SendAll(i) => Valid(s.logs[i])
    case Append(l) => Valid(s.logs[l.dst]) && l.req.prevLogIndex >= -1
    case Acknowledge(k) => Valid(s.logs[k.dst]) && k.resp.matchIndex >= -1
    case Confirm(i, _) => CanApply(s.logs[i])
    case Finish(r) => Valid(s.logs[r.node])
    case _ => true
  }

  function Notified(n: LogState, call: EC.Call): LogState {
    match call
    case LeaderCall(_, term) => BecomeLeader(n, term)
    case FollowerCall(_, _, term) => BecomeFollower(n, term)
  }

  function Step(s: System, a: Action): System
    requires Enabled(s, a) && Safe(s, a)
  {
    match a
    case Elect(step) => s.(election := EC.Step(s.election, step))
    case Notify(call) =>
      s.(election := EC.Step(s.election, EC.RunCall(call)),
         logs := s.logs[call.node := Notified(s.logs[call.node], call)],
         led := if call.LeaderCall? then s.led[call.node := call.term] else s.led)
    case ProposeAt(i, change, key, value) =>
      var entry := NewEntry(s.logs[i], change, key, value);
      var n := LogModel.Append(s.logs[i], entry);
      s.(logs := s.logs[i := n], open := s.open[i := s.open[i] + {entry}], canon := s.canon[entry.term := n.log])
    case SendAll(i) => s.(letters := s.letters + multiset(Broadcast(s.logs[i])))
    case Append(l) =>
      var r := HandleAppendEntries(s.logs[l.dst], l.req);
      s.(logs := s.logs[l.dst := r.state],
         letters := s.letters - multiset{l},
         acks := s.acks + multiset{Ack(l.req.leaderID, r.resp)})
    case Acknowledge(k) =>
      var r := HandleResponse(s.logs[k.dst], k.resp);
      s.(logs := s.logs[k.dst := r.state],
         acks := s.acks - multiset{k},
         letters := if r.retry.Some? then s.letters + multiset{Outgoing(k.resp.followerID, r.retry.value)}
                    else s.letters)
    case Confirm(i, e) =>
      s.(logs := s.logs[i := ApplyCommitted(s.logs[i])],
         open := s.open[i := s.open[i] - {e}],
         finishing := s.finishing + {Receipt(i, e)})
    case Finish(r) =>
      s.(letters := s.letters + multiset(Broadcast(s.logs[r.node])),
         finishing := s.finishing - {r},
         receipts := s.receipts + {r})
    case GiveUp(i, e) => s.(open := s.open[i := s.open[i] - {e}])
    case LoseLetter(l) => s.(letters := s.letters - multiset{l})
    case LoseAck(k) => s.(acks := s.acks - multiset{k})
  }

  ghost predicate Possible(s: System, run: seq<Action>)
    decreases |run|
  {
    run == [] || (Enabled(s, run[0]) && Safe(s, run[0]) && Possible(Step(s, run[0]), run[1..]))
  }

  function Exec(s: System, run: seq<Action>): System
    requires Possible(s, run)
    decreases |run|
  {
    if run == [] then s else Exec(Step(s, run[0]), run[1..])
  }

  /** The whole ensemble as its constructors leave it. */
  ghost predicate Fresh(s: System) {
    && EC.Fresh(s.election)
    && s.logs.Keys == s.open.Keys == s.election.nodes.Keys
    && (forall i :: i in s.logs ==> s.logs[i] == NewLog(i, s.election.nodes[i].peers) && s.open[i] == {})
    && s.letters == multiset{} && s.acks == multiset{} && s.finishing == {} && s.receipts == {}
    && s.led == map[] && s.canon == map[]
  }

  // ---------- what each action makes of the system, field by field ----------

  lemma NotifyStep(s: System, call: EC.Call)
    requires Enabled(s, Notify(call))
    ensures var s' := Step(s, Notify(call));
            s' == s.(election := EC.Step(s.election, EC.RunCall(call)),
                     logs := s.logs[call.node := Notified(s.logs[call.node], call)],
                     led := if call.LeaderCall? then s.led[call.node := call.term] else s.led)
  {
  }

  lemma ProposeStep(s: System, a: Action)
    requires a.ProposeAt? && Enabled(s, a)
    ensures var n := s.logs[a.node];
            var e := NewEntry(n, a.change, a.key, a.value);
            var n' := LogModel.Append(n, e);
            Step(s, a) == s.(logs := s.logs[a.node := n'], open := s.open[a.node := s.open[a.node] + {e}],
                             canon := s.canon[e.term := n'.log])
  {
  }

  lemma SendStep(s: System, a: Action, i: nat)
    requires Enabled(s, a) && (a == SendAll(i) || (a.Finish? && a.receipt.node == i)) && Valid(s.logs[i])
    ensures Safe(s, a)
    ensures var s' := Step(s, a);
            && s' == s.(letters := s.letters + multiset(Broadcast(s.logs[i])),
                        finishing := s'.finishing, receipts := s'.receipts)
            && s'.finishing <= s.finishing && s'.finishing + s'.receipts == s.finishing + s.receipts
  {
  }

  lemma AppendStep(s: System, l: Outgoing)
    requires Enabled(s, Append(l)) && Safe(s, Append(l))
    ensures var r := HandleAppendEntries(s.logs[l.dst], l.req);
            Step(s, Append(l)) ==
              s.(logs := s.logs[l.dst := r.state], letters := s.letters - multiset{l},
                 acks := s.acks + multiset{Ack(l.req.leaderID, r.resp)})
  {
  }

  lemma AcknowledgeStep(s: System, k: Ack)
    requires Enabled(s, Acknowledge(k)) && Valid(s.logs[k.dst]) && k.resp.matchIndex >= -1
    ensures Safe(s, Acknowledge(k))
    ensures var r := HandleResponse(s.logs[k.dst], k.resp);
            Step(s, Acknowledge(k)) ==
              s.(logs := s.logs[k.dst := r.state], acks := s.acks - multiset{k},
                 letters := if r.retry.Some? then s.letters + multiset{Outgoing(k.resp.followerID, r.retry.value)}
                            else s.letters)
  {
  }

  lemma ConfirmStep(s: System, i: nat, e: LogEntry)
    requires Enabled(s, Confirm(i, e)) && Safe(s, Confirm(i, e))
    ensures Step(s, Confirm(i, e)) ==
              s.(logs := s.logs[i := ApplyCommitted(s.logs[i])], open := s.open[i := s.open[i] - {e}],
                 finishing := s.finishing + {Receipt(i, e)})
  {
  }

  /** Elections, losses and giving up change no log module. */
  lemma RestStep(s: System, a: Action)
    requires Enabled(s, a) && Safe(s, a) && (a.Elect? || a.GiveUp? || a.LoseLetter? || a.LoseAck?)
    ensures var s' := Step(s, a);
            && s' == s.(election := s'.election, letters := s'.letters, acks := s'.acks, open := s'.open)
            && (a.Elect? || s'.election == s.election) && s'.letters <= s.letters && s'.acks <= s.acks
            && s'.open.Keys == s.open.Keys && forall i :: i in s.open ==> s'.open[i] <= s.open[i]
  {
    hide EC.Step, EC.Enabled;
    match a
    case Elect(_) =>
    case GiveUp(_, _) =>
    case LoseLetter(_) =>
    case LoseAck(_) =>
  }

  // ---------- the stale-leader guard ----------

  /** Node i is a leader in the term of its latest BecomeLeader call. The program itself checks
      only `isLeader`, which a higher-term AppendEntries does not clear. */
  predicate AtHelm(s: System, i: nat) {
    i in s.logs && i in s.led && s.logs[i].isLeader && s.logs[i].currentTerm == s.led[i]
  }

  /** Appends and sends happen only at the helm. */
  predicate Guarded(s: System, a: Action)
    requires Enabled(s, a)
  {
    match a
    case ProposeAt(i, _, _, _) => AtHelm(s, i)
    case SendAll(i) => AtHelm(s, i)
    case Finish(r) => AtHelm(s, r.node)
    case Acknowledge(k) => k.resp.success || k.resp.term > s.logs[k.dst].currentTerm || AtHelm(s, k.dst)
    case _ => true
  }

  ghost predicate GuardedRun(s: System, run: seq<Action>)
    requires Possible(s, run)
    decreases |run|
  {
    run != [] ==> Guarded(s, run[0]) && GuardedRun(Step(s, run[0]), run[1..])
  }
}
