/** A whole cluster of election nodes. The network may lose, delay and reorder packets but delivers
    each at most once; nodes may crash. A run is any list of enabled actions. */
module ElectionCluster {
  import opened Types
  import opened Quorum
  import opened ElectionModel

  datatype Message = Ask(request: VoteRequest) | Answer(response: VoteResponse) | Beat(beat: Heartbeat)

  datatype Packet = Packet(dst: nat, msg: Message)

  /** A callback into a node's log module, started but not yet run. */
  datatype Call = LeaderCall(node: nat, term: int) | FollowerCall(node: nat, leader: nat, term: int)

  datatype Ballot = Ballot(term: int, candidate: nat)

  datatype Vote = Vote(term: int, voter: nat, candidate: nat)

  /** What has happened so far; no action ever looks at it. `ballots` holds, for every candidacy
      opened, the voters the candidate has counted. */
  datatype History = History(
    votes: set<Vote>,
    ballots: map<Ballot, set<nat>>,
    won: set<Ballot>,
    started: set<Call>,
    finished: set<Call>)

  datatype Cluster = Cluster(
    nodes: map<nat, ElectionState>,
    alive: set<nat>,
    net: multiset<Packet>,
    calls: multiset<Call>,
    history: History)

  datatype Action =
    | Clock(node: nat, timedOut: bool)
    | Deliver(packet: Packet)
    | Lose(lost: Packet)
    | Crash(crashed: nat)
    | RunCall(call: Call)

  /** One copy of a message for every member of a set. */
  function Broadcast(to: set<nat>, msg: Message): (r: multiset<Packet>)
    ensures forall p :: r[p] == if p.msg == msg && p.dst in to then 1 else 0
  {
    multiset(set i | i in to :: Packet(i, msg))
  }

  function Sent(c: Cluster, i: nat, effect: Effect): multiset<Packet> {
    match effect
    case AskVotes(req) => Broadcast(c.nodes.Keys - {i}, Ask(req))
    case ReplyVote(target, resp) => multiset{Packet(target, Answer(resp))}
    case SendBeat(hb) => Broadcast(c.nodes.Keys - {i}, Beat(hb))
    case _ => multiset{}
  }

  function Called(i: nat, effect: Effect): set<Call> {
    match effect
    case BecameLeader(term) => {LeaderCall(i, term)}
    case BecameFollower(leader, term) => {FollowerCall(i, leader, term)}
    case _ => {}
  }

  /** Node i takes a turn: its state changes, its messages leave, its callbacks start. */
  function Act(c: Cluster, i: nat, t: Turn): Cluster {
    c.(nodes := c.nodes[i := t.state],
       net := c.net + Sent(c, i, t.effect),
       calls := c.calls + multiset(Called(i, t.effect)),
       history := c.history.(started := c.history.started + Called(i, t.effect)))
  }

  function Remember(h: History, i: nat, before: ElectionState, msg: Option<Message>, t: Turn): History {
    match msg
    case None =>
      if t.effect.AskVotes? then
        h.(votes := h.votes + {Vote(t.state.currentTerm, i, i)},
           ballots := h.ballots[Ballot(t.state.currentTerm, i) := {i}])
      else h
    case Some(Ask(req)) =>
      if t.effect.ReplyVote? && t.effect.response.voteGranted then
        h.(votes := h.votes + {Vote(req.term, i, req.candidateID)})
      else h
    case Some(Answer(resp)) =>
      var b := Ballot(before.currentTerm, i);
      if before.role == Candidate && resp.term == before.currentTerm && resp.voteGranted then
        h.(ballots := h.ballots[b := (if b in h.ballots then h.ballots[b] else {}) + {resp.voterID}],
           won := if t.effect.BecameLeader? then h.won + {b} else h.won)
      else h
    case Some(Beat(_)) => h
  }

  function Receive(s: ElectionState, msg: Message): Turn {
    match msg
    case Ask(req) => HandleVoteRequest(s, req)
    case Answer(resp) => HandleVoteResponse(s, resp)
    case Beat(hb) => HandleHeartbeat(s, hb)
  }

  predicate Enabled(c: Cluster, a: Action) {
    match a
    case Clock(i, _) => i in c.nodes && i in c.alive
    case Deliver(p) => p in c.net && p.dst in c.nodes && p.dst in c.alive
    case Lose(p) => p in c.net
    case Crash(i) => i in c.alive
    case RunCall(call) => call in c.calls
  }

  function Step(c: Cluster, a: Action): Cluster
    requires Enabled(c, a)
  {
    match a
    case Clock(i, timedOut) =>
      var t := Tick(c.nodes[i], timedOut);
      Act(c.(history := Remember(c.history, i, c.nodes[i], None, t)), i, t)
    case Deliver(p) =>
      var i := p.dst;
      var t := Receive(c.nodes[i], p.msg);
      Act(c.(net := c.net - multiset{p}, history := Remember(c.history, i, c.nodes[i], Some(p.msg), t)), i, t)
    case Lose(p) => c.(net := c.net - multiset{p})
    case Crash(i) => c.(alive := c.alive - {i})
    case RunCall(call) =>
      c.(calls := c.calls - multiset{call}, history := c.history.(finished := c.history.finished + {call}))
  }

  predicate Possible(c: Cluster, run: seq<Action>)
    decreases |run|
  {
    run == [] || (Enabled(c, run[0]) && Possible(Step(c, run[0]), run[1..]))
  }

  function Exec(c: Cluster, run: seq<Action>): Cluster
    requires Possible(c, run)
    decreases |run|
  {
    if run == [] then c else Exec(Step(c, run[0]), run[1..])
  }

  /** Every node as its constructor leaves it, knowing all the others, and nothing in flight. */
  ghost predicate Fresh(c: Cluster) {
    && (forall i :: i in c.nodes ==>
          && c.nodes[i] == NewElection(i, c.nodes[i].peers)
          && Distinct(c.nodes[i].peers) && Members(c.nodes[i].peers) == c.nodes.Keys - {i})
    && c.alive <= c.nodes.Keys
    && c.net == multiset{} && c.calls == multiset{}
    && c.history == History({}, map[], {}, {}, {})
  }
}
