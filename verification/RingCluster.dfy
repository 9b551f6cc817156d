/** All nodes of the token ring together with the token messages in flight. The network may lose the
    token; a killed node no longer receives tokens or passes them when idle, but its lock interface
    still answers, as in the program. */
module RingCluster {
  import opened Quorum
  import opened RingModel

  /** Where the token is. */
  datatype Place = Held(node: nat) | Flying(packet: TokenPacket) | Gone

  datatype Event = Granted(node: nat, requester: string) | Released(node: nat, requester: string)

  /** What has happened so far; no action looks at it. */
  datatype Chronicle = Chronicle(
    place: Place,
    visits: seq<nat>,
    events: seq<Event>,
    made: map<nat, seq<LockRequest>>,
    served: map<nat, seq<LockRequest>>,
    nextTicket: nat)

  datatype Cluster = Cluster(
    ring: seq<nat>,
    nodes: map<nat, RingState>,
    flight: multiset<TokenPacket>,
    alive: set<nat>,
    past: Chronicle)

  datatype Action =
    | Receive(packet: TokenPacket)
    | Tick(node: nat)
    | Ask(asker: nat, resource: string, requester: string)
    | Release(owner: nat, releaser: string)
    | Lose(lost: TokenPacket)
    | Kill(victim: nat)

  predicate Enabled(c: Cluster, a: Action) {
    match a
    case Receive(p) => p in c.flight && p.dst in c.nodes && p.dst in c.alive
    case Tick(i) => i in c.nodes && i in c.alive && OnRing(c.nodes[i])
    case Ask(i, _, _) => i in c.nodes
    case Release(i, _) => i in c.nodes && OnRing(c.nodes[i])
    case Lose(p) => p in c.flight
    case Kill(i) => i in c.alive
  }

  predicate OnRing(s: RingState) {
    |s.ring| > 0 && s.pos >= -1
  }

  function Turn(c: Cluster, a: Action): RingTurn
    requires Enabled(c, a) && !a.Lose? && !a.Kill?
  {
    match a
    case Receive(p) => HandleTokenReceive(c.nodes[p.dst], p.seqNum)
    case Tick(i) => IdlePass(c.nodes[i])
    case Ask(i, resource, requester) =>
      RequestAccess(c.nodes[i], LockRequest(resource, requester, c.past.nextTicket))
    case Release(i, requester) => ReleaseAccess(c.nodes[i], requester)
  }

  function Actor(a: Action): nat
    requires !a.Lose? && !a.Kill?
  {
    match a
    case Receive(p) => p.dst
    case Tick(i) => i
    case Ask(i, _, _) => i
    case Release(i, _) => i
  }

  function At(m: map<nat, seq<LockRequest>>, i: nat): seq<LockRequest> {
    if i in m then m[i] else []
  }

  /** The place of the token after a turn: gone on its way, arrived, or where it was. */
  function NewPlace(c: Cluster, a: Action, t: RingTurn): Place
    requires !a.Lose? && !a.Kill?
  {
    if t.passed.Some? then Flying(t.passed.value)
    else if a.Receive? then Held(a.packet.dst)
    else c.past.place
  }

  function NewEvents(a: Action, t: RingTurn): seq<Event>
    requires !a.Lose? && !a.Kill?
  {
    (if a.Release? && t.ok then [Released(a.owner, a.releaser)] else [])
    + (if t.granted.Some? then [Granted(Actor(a), t.granted.value.requester)] else [])
  }

  function Remember(c: Cluster, a: Action, t: RingTurn): Chronicle
    requires !a.Lose? && !a.Kill?
  {
    var h := c.past;
    var i := Actor(a);
    Chronicle(
      NewPlace(c, a, t),
      if a.Receive? then h.visits + [i] else h.visits,
      h.events + NewEvents(a, t),
      if a.Ask? then h.made[i := At(h.made, i) + [LockRequest(a.resource, a.requester, h.nextTicket)]] else h.made,
      if t.granted.Some? then h.served[i := At(h.served, i) + [t.granted.value]] else h.served,
      if a.Ask? then h.nextTicket + 1 else h.nextTicket)
  }

  function Step(c: Cluster, a: Action): Cluster
    requires Enabled(c, a)
  {
    match a
    case Lose(p) =>
      c.(flight := c.flight - multiset{p},
         past := c.past.(place := if c.past.place == Flying(p) then Gone else c.past.place))
    case Kill(i) => c.(alive := c.alive - {i})
    case _ =>
      var t := Turn(c, a);
      var flight := if a.Receive? then c.flight - multiset{a.packet} else c.flight;
      c.(nodes := c.nodes[Actor(a) := t.state],
         flight := if t.passed.Some? then flight + multiset{t.passed.value} else flight,
         past := Remember(c, a, t))
  }

  predicate Possible(c: Cluster, run: seq<Action>)
    decreases |run|
  {
    run == [] || (Enabled(c, run[0]) && Possible(Step(c, run[0]), run[1..]))
  }

  function Exec(c: Cluster, run: seq<Action>): Cluster
    requires Possible(c, run)
    decreases |run|
  {
    if run == [] then c else Exec(Step(c, run[0]), run[1..])
  }

  /** Every node built by its constructor on the same ring, the first node holding the token. */
  ghost predicate Fresh(c: Cluster) {
    && |c.ring| > 0 && Distinct(c.ring) && c.nodes.Keys == Members(c.ring)
    && (forall i :: i in c.nodes ==> c.nodes[i] == NewRing(i, c.ring, c.ring[0]))
    && c.flight == multiset{} && c.alive == c.nodes.Keys
    && c.past == Chronicle(Held(c.ring[0]), [c.ring[0]], [], map[], map[], 0)
  }
}
