/** Mutual exclusion, token order and fairness of the queues, over every run of the ring. */
module RingSafety {
  import opened Quorum
  import opened RingModel
  import opened RingCluster

  // ---------- the invariant ----------

  ghost predicate NodeWired(ring: seq<nat>, i: nat, s: RingState) {
    s.id == i && s.ring == ring && 0 <= s.pos < |ring| && ring[s.pos] == i
  }

  ghost predicate Wired(c: Cluster) {
    && |c.ring| > 0 && Distinct(c.ring) && c.nodes.Keys == Members(c.ring)
    && forall i :: i in c.nodes ==> NodeWired(c.ring, i, c.nodes[i])
  }

  /** A node in its critical section has the token, and a node that sits on an idle token has nobody waiting. */
  ghost predicate QueueOk(s: RingState) {
    (s.inCS ==> s.hasToken) && (s.hasToken && !s.inCS ==> s.waitQueue == [])
  }

  ghost predicate QueuesOk(c: Cluster) {
    forall i :: i in c.nodes ==> QueueOk(c.nodes[i])
  }

  /** Only the holder has the token, and the only packet is the flying one. */
  ghost predicate OneToken(c: Cluster) {
    && (forall i :: i in c.nodes ==> (c.nodes[i].hasToken <==> c.past.place == Held(i)))
    && c.flight == (if c.past.place.Flying? then multiset{c.past.place.packet} else multiset{})
    && (c.past.place.Held? ==> c.past.place.node in c.nodes)
    && (c.past.place.Flying? ==> c.past.place.packet.dst in c.nodes)
  }

  /** The k-th visit of the token goes to this node. */
  function Station(ring: seq<nat>, k: nat): nat
    requires |ring| > 0
  {
    ring[k % |ring|]
  }

  /** The token visits the ring in order, and its sequence number counts the visits. */
  ghost predicate InOrder(c: Cluster)
    requires |c.ring| > 0
  {
    var n := |c.past.visits|;
    && n > 0
    && (forall k :: 0 <= k < n ==> c.past.visits[k] == Station(c.ring, k))
    && match c.past.place {
         case Held(i) => i == Station(c.ring, n - 1) && i in c.nodes && c.nodes[i].seqNum == n - 1
                         && forall j :: j in c.nodes ==> c.nodes[j].seqNum <= n - 1
         case Flying(p) => p == TokenPacket(Station(c.ring, n), n)
                           && forall j :: j in c.nodes ==> c.nodes[j].seqNum <= n
         case Gone => true
       }
  }

  ghost predicate Queued(c: Cluster, i: nat)
    requires i in c.nodes
  {
    && At(c.past.made, i) == At(c.past.served, i) + c.nodes[i].waitQueue
    && (c.nodes[i].inCS ==> LastServed(c.nodes[i], At(c.past.served, i)))
  }

  /** Node s is inside for the request it granted last. */
  ghost predicate LastServed(s: RingState, served: seq<LockRequest>) {
    served != [] && Inside(s, served[|served| - 1])
  }

  ghost predicate Inside(s: RingState, r: LockRequest) {
    s.inCS && s.csHolder == r.requester && s.csResource == r.resource
  }

  ghost predicate SameInside(s: RingState, s': RingState) {
    s'.inCS ==> s.inCS && s'.csHolder == s.csHolder && s'.csResource == s.csResource
  }

  ghost predicate TicketsRise(made: seq<LockRequest>, next: nat) {
    && (forall k :: 0 <= k < |made| ==> made[k].ticket < next)
    && forall k, l :: 0 <= k < l < |made| ==> made[k].ticket < made[l].ticket
  }

  /** At every node, what was asked for is what was granted followed by what still waits, in the order of
      the requests' tickets. */
  ghost predicate Fifo(c: Cluster) {
    forall i :: i in c.nodes ==> Queued(c, i) && TicketsRise(At(c.past.made, i), c.past.nextTicket)
  }

  /** Grants and releases take turns, and a release answers the grant before it. */
  ghost predicate Alternates(events: seq<Event>) {
    && (forall k :: 0 <= k < |events| ==> (events[k].Granted? <==> k % 2 == 0))
    && (forall k :: 0 < k < |events| && events[k].Released? ==>
          events[k - 1] == Granted(events[k].node, events[k].requester))
  }

  /** The grant that is still open is the one of the node in its critical section. */
  ghost predicate EventsOk(c: Cluster) {
    var e := c.past.events;
    && Alternates(e)
    && (|e| % 2 == 1 ==>
          var last := e[|e| - 1];
          last.node in c.nodes && c.nodes[last.node].inCS && c.nodes[last.node].csHolder == last.requester)
    && (|e| % 2 == 0 ==> forall i :: i in c.nodes ==> !c.nodes[i].inCS)
  }

  ghost predicate Inv(c: Cluster) {
    Wired(c) && QueuesOk(c) && OneToken(c) && InOrder(c) && Fifo(c) && EventsOk(c)
  }

  lemma FreshNode(ring: seq<nat>, i: nat)
    requires |ring| > 0 && Distinct(ring) && i in ring
    ensures var s := NewRing(i, ring, ring[0]);
            && NodeWired(ring, i, s) && QueueOk(s) && s.seqNum == 0 && !s.inCS && s.waitQueue == []
            && (s.hasToken <==> i == ring[0])
  {
  }

  /** What every freshly built node looks like. */
  ghost predicate NewNodes(c: Cluster) {
    forall i :: i in c.nodes ==>
      && NodeWired(c.ring, i, c.nodes[i]) && QueueOk(c.nodes[i])
      && c.nodes[i].seqNum == 0 && !c.nodes[i].inCS && c.nodes[i].waitQueue == []
      && (c.nodes[i].hasToken <==> i == c.ring[0])
  }

  lemma FreshNodes(c: Cluster)
    requires Fresh(c)
    ensures NewNodes(c) && Wired(c) && QueuesOk(c)
  {
    hide NodeWired, QueueOk, NewRing, Distinct;
    forall i | i in c.nodes
      ensures NodeWired(c.ring, i, c.nodes[i]) && QueueOk(c.nodes[i]) && c.nodes[i].seqNum == 0 && !c.nodes[i].inCS
        && c.nodes[i].waitQueue == [] && (c.nodes[i].hasToken <==> i == c.ring[0])
    {
      FreshNode(c.ring, i);
    }
  }

  lemma FreshTokens(c: Cluster)
    requires NewNodes(c) && |c.ring| > 0 && c.ring[0] in c.nodes
    requires c.past.place == Held(c.ring[0]) && c.flight == multiset{} && c.past.visits == [c.ring[0]]
    ensures OneToken(c) && InOrder(c)
  {
    hide NodeWired, QueueOk;
  }

  lemma FreshRecords(c: Cluster)
    requires NewNodes(c) && c.past.made == map[] && c.past.served == map[] && c.past.events == []
    ensures Fifo(c) && EventsOk(c)
  {
    hide NodeWired, QueueOk;
  }

  lemma FreshIsSound(c: Cluster)
    requires Fresh(c)
    ensures Inv(c)
  {
    FreshNodes(c);
    assert |c.ring| > 0 && c.ring[0] in c.nodes && c.flight == multiset{};
    assert c.past == Chronicle(Held(c.ring[0]), [c.ring[0]], [], map[], map[], 0);
    hide NewNodes, Fresh, Wired, QueuesOk, OneToken, InOrder, Fifo, EventsOk;
    FreshTokens(c);
    FreshRecords(c);
  }

  // ---------- one node takes a turn ----------

  /** Only node i changes, and not its place on the ring. */
  ghost predicate OneActs(c: Cluster, c': Cluster, i: nat) {
    && i in c.nodes && i in c'.nodes && c'.ring == c.ring && c'.nodes == c.nodes[i := c'.nodes[i]]
    && var s, s' := c.nodes[i], c'.nodes[i];
       s'.id == s.id && s'.ring == s.ring && s'.pos == s.pos && QueueOk(s')
  }

  lemma WiringKeeps(c: Cluster, c': Cluster, i: nat)
    requires Wired(c) && QueuesOk(c) && OneActs(c, c', i)
    ensures Wired(c') && QueuesOk(c')
  {
    assert c'.nodes.Keys == c.nodes.Keys;
    assert NodeWired(c.ring, i, c.nodes[i]) && NodeWired(c.ring, i, c'.nodes[i]);
    hide NodeWired, QueueOk, Distinct;
  }

  /** The token stays where it is, arrives at node i, or leaves node i for its successor. */
  ghost predicate TokenMoves(c: Cluster, c': Cluster, i: nat)
    requires OneActs(c, c', i)
  {
    var s, s' := c.nodes[i], c'.nodes[i];
    var from, to := c.past.place, c'.past.place;
    || (to == from && c'.flight == c.flight && s'.hasToken == s.hasToken && s'.seqNum == s.seqNum
        && c'.past.visits == c.past.visits)
    || (from.Flying? && from.packet.dst == i && to == Held(i) && c'.flight == c.flight - multiset{from.packet}
        && s'.hasToken && s'.seqNum == from.packet.seqNum && c'.past.visits == c.past.visits + [i])
    || (from == Held(i) && |s.ring| > 0 && s.pos >= -1
        && to == Flying(TokenPacket(NextNode(s), s.seqNum + 1)) && c'.flight == c.flight + multiset{to.packet}
        && !s'.hasToken && s'.seqNum == s.seqNum + 1 && c'.past.visits == c.past.visits)
  }

  lemma MultiplesAreLarge(n: int, d: int)
    requires n > 0
    ensures d >= 1 ==> n * d >= n
    ensures d <= -1 ==> n * d <= -n
  {
    assert n * d == n + n * (d - 1) && n * d == -n + n * (d + 1);
  }

  lemma NoSmallMultiple(n: int, d: int)
    requires n > 0 && -n < n * d < n
    ensures d == 0
  {
    MultiplesAreLarge(n, d);
  }

  lemma ModIs(x: int, n: int, q: int, r: int)
    requires 0 <= r < n && x == n * q + r
    ensures x % n == r
  {
    assert x == n * (x / n) + x % n;
    assert n * (x / n - q) == n * (x / n) - n * q;
    NoSmallMultiple(n, x / n - q);
  }

  lemma ModPlus(k: nat, n: nat)
    requires n > 0
    ensures (k + n) % n == k % n
  {
    assert k + n == n * (k / n + 1) + k % n;
    ModIs(k + n, n, k / n + 1, k % n);
  }

  lemma ModNext(k: nat, n: nat)
    requires n > 0
    ensures (k + 1) % n == if k % n + 1 == n then 0 else k % n + 1
  {
    assert k == n * (k / n) + k % n;
    if k % n + 1 == n {
      assert k + 1 == n * (k / n + 1) + 0;
      ModIs(k + 1, n, k / n + 1, 0);
    } else {
      ModIs(k + 1, n, k / n, k % n + 1);
    }
  }

  lemma NextStation(ring: seq<nat>, pos: int, k: nat)
    requires Distinct(ring) && 0 <= pos < |ring| && ring[pos] == Station(ring, k)
    ensures ring[(pos + 1) % |ring|] == Station(ring, k + 1)
  {
    var n := |ring|;
    assert pos == k % n;
    ModNext(k, n);
    ModIs(pos + 1, n, if pos + 1 == n then 1 else 0, if pos + 1 == n then 0 else pos + 1);
  }

  lemma HolderKeeps(c: Cluster, c': Cluster, i: nat, j: nat)
    requires OneToken(c) && OneActs(c, c', i) && TokenMoves(c, c', i) && j in c.nodes
    ensures j in c'.nodes && (c'.nodes[j].hasToken <==> c'.past.place == Held(j))
  {
    hide QueueOk;
    assert c.nodes[j].hasToken <==> c.past.place == Held(j);
    assert c.nodes[i].hasToken <==> c.past.place == Held(i);
  }

  lemma FlightKeeps(c: Cluster, c': Cluster, i: nat)
    requires Wired(c) && OneToken(c) && OneActs(c, c', i) && TokenMoves(c, c', i)
    ensures c'.flight == (if c'.past.place.Flying? then multiset{c'.past.place.packet} else multiset{})
    ensures c'.past.place.Held? ==> c'.past.place.node in c'.nodes
    ensures c'.past.place.Flying? ==> c'.past.place.packet.dst in c'.nodes
  {
    assert c.nodes[i].ring == c.ring && |c.ring| > 0 by { assert NodeWired(c.ring, i, c.nodes[i]); }
    assert OnRing(c.nodes[i]) ==> NextNode(c.nodes[i]) in c.nodes;
    hide QueueOk, Wired;
  }

  lemma OneTokenKeeps(c: Cluster, c': Cluster, i: nat)
    requires Wired(c) && OneToken(c) && OneActs(c, c', i) && TokenMoves(c, c', i)
    ensures OneToken(c')
  {
    FlightKeeps(c, c', i);
    assert c'.nodes.Keys == c.nodes.Keys;
    hide OneActs, TokenMoves, Wired;
    forall j | j in c'.nodes ensures c'.nodes[j].hasToken <==> c'.past.place == Held(j) {
      HolderKeeps(c, c', i, j);
    }
  }

  lemma PassInOrder(c: Cluster, c': Cluster, i: nat)
    requires Wired(c) && InOrder(c) && OneActs(c, c', i) && TokenMoves(c, c', i)
    requires c'.past.place.Flying? && c.past.place.Held?
    ensures InOrder(c')
  {
    assert NodeWired(c.ring, i, c.nodes[i]);
    hide QueueOk, Station, NodeWired;
    NextStation(c.ring, c.nodes[i].pos, |c.past.visits| - 1);
  }

  lemma InOrderKeeps(c: Cluster, c': Cluster, i: nat)
    requires Wired(c) && InOrder(c) && OneActs(c, c', i) && TokenMoves(c, c', i)
    ensures InOrder(c')
  {
    assert |c.ring| > 0;
    hide QueueOk, Station, Wired;
    if c'.past.place.Flying? && c.past.place.Held? {
      PassInOrder(c, c', i);
    }
  }

  lemma TokenKeeps(c: Cluster, c': Cluster, i: nat)
    requires Wired(c) && OneToken(c) && InOrder(c) && OneActs(c, c', i) && TokenMoves(c, c', i)
    ensures OneToken(c') && InOrder(c')
  {
    OneTokenKeeps(c, c', i);
    hide OneToken, TokenMoves;
    InOrderKeeps(c, c', i);
  }

  /** Node i's queue and the record of requests made and served move together. */
  ghost predicate QueueMoves(c: Cluster, c': Cluster, i: nat)
    requires OneActs(c, c', i)
  {
    var q, q' := c.nodes[i].waitQueue, c'.nodes[i].waitQueue;
    var h, h' := c.past, c'.past;
    || (q' == q && h'.made == h.made && h'.served == h.served && h'.nextTicket == h.nextTicket
        && SameInside(c.nodes[i], c'.nodes[i]))
    || (q != [] && Inside(c'.nodes[i], q[0]) && q' == q[1..] && h'.made == h.made
        && h'.served == h.served[i := At(h.served, i) + [q[0]]] && h'.nextTicket == h.nextTicket)
    || (h'.nextTicket == h.nextTicket + 1 && exists r: LockRequest :: r.ticket == h.nextTicket && Joins(c, c', i, r))
  }

  /** A new request lands at the end of the queue, or is served at once where nobody waits. */
  ghost predicate Joins(c: Cluster, c': Cluster, i: nat, r: LockRequest)
    requires i in c.nodes && i in c'.nodes
  {
    var q, q' := c.nodes[i].waitQueue, c'.nodes[i].waitQueue;
    var h, h' := c.past, c'.past;
    && h'.made == h.made[i := At(h.made, i) + [r]]
    && ((q' == q + [r] && h'.served == h.served && SameInside(c.nodes[i], c'.nodes[i]))
        || (q == [] && q' == [] && Inside(c'.nodes[i], r) && h'.served == h.served[i := At(h.served, i) + [r]]))
  }

  lemma TicketsRiseOn(made: seq<LockRequest>, next: nat, r: LockRequest)
    requires TicketsRise(made, next) && r.ticket == next
    ensures TicketsRise(made + [r], next + 1)
  {
  }

  lemma QueueGrows(c: Cluster, c': Cluster, i: nat, r: LockRequest)
    requires i in c.nodes && i in c'.nodes && Queued(c, i) && TicketsRise(At(c.past.made, i), c.past.nextTicket)
    requires r.ticket == c.past.nextTicket && c'.past.nextTicket == r.ticket + 1 && Joins(c, c', i, r)
    ensures Queued(c', i) && TicketsRise(At(c'.past.made, i), c'.past.nextTicket)
  {
    hide TicketsRise;
    assert At(c'.past.served, i) + c'.nodes[i].waitQueue == At(c.past.served, i) + c.nodes[i].waitQueue + [r];
    TicketsRiseOn(At(c.past.made, i), c.past.nextTicket, r);
  }

  lemma QueueShrinks(c: Cluster, c': Cluster, i: nat)
    requires i in c.nodes && i in c'.nodes && Queued(c, i) && c.nodes[i].waitQueue != []
    requires c'.nodes[i].waitQueue == c.nodes[i].waitQueue[1..] && c'.past.made == c.past.made
    requires Inside(c'.nodes[i], c.nodes[i].waitQueue[0])
    requires c'.past.served == c.past.served[i := At(c.past.served, i) + [c.nodes[i].waitQueue[0]]]
    ensures Queued(c', i)
  {
    var q := c.nodes[i].waitQueue;
    assert q == [q[0]] + q[1..];
  }

  lemma QueueKeeps(c: Cluster, c': Cluster, i: nat)
    requires i in c.nodes && Queued(c, i) && TicketsRise(At(c.past.made, i), c.past.nextTicket)
    requires OneActs(c, c', i) && QueueMoves(c, c', i)
    ensures Queued(c', i) && TicketsRise(At(c'.past.made, i), c'.past.nextTicket)
  {
    var h, h' := c.past, c'.past;
    assert i in c'.nodes;
    hide QueueOk, TicketsRise, OneActs, Joins, At;
    if h'.nextTicket != h.nextTicket {
      var r: LockRequest :| r.ticket == h.nextTicket && Joins(c, c', i, r);
      QueueGrows(c, c', i, r);
    } else if c'.nodes[i].waitQueue != c.nodes[i].waitQueue || h'.served != h.served {
      QueueShrinks(c, c', i);
    }
  }

  lemma OtherQueuesKeep(c: Cluster, c': Cluster, i: nat, j: nat)
    requires j in c.nodes && Queued(c, j) && TicketsRise(At(c.past.made, j), c.past.nextTicket) && j != i
    requires OneActs(c, c', i) && QueueMoves(c, c', i)
    ensures j in c'.nodes && Queued(c', j) && TicketsRise(At(c'.past.made, j), c'.past.nextTicket)
  {
    hide QueueOk;
  }

  lemma FifoKeeps(c: Cluster, c': Cluster, i: nat)
    requires Fifo(c) && OneActs(c, c', i) && QueueMoves(c, c', i)
    ensures Fifo(c')
  {
    hide QueueMoves, Queued, TicketsRise, QueueOk;
    forall j | j in c'.nodes ensures Queued(c', j) && TicketsRise(At(c'.past.made, j), c'.past.nextTicket) {
      if j == i { QueueKeeps(c, c', i); } else { OtherQueuesKeep(c, c', i, j); }
    }
  }

  /** A turn grants, releases, releases and grants again, or does neither. */
  ghost predicate EventMoves(c: Cluster, c': Cluster, i: nat)
    requires OneActs(c, c', i)
  {
    var s, s' := c.nodes[i], c'.nodes[i];
    var e, e' := c.past.events, c'.past.events;
    || (e' == e && s'.inCS == s.inCS && (s.inCS ==> s'.csHolder == s.csHolder))
    || (e' == e + [Granted(i, s'.csHolder)] && s'.inCS && forall j :: j in c.nodes ==> !c.nodes[j].inCS)
    || (s.inCS && e' == e + [Released(i, s.csHolder)] && !s'.inCS)
    || (s.inCS && e' == e + [Released(i, s.csHolder), Granted(i, s'.csHolder)] && s'.inCS)
  }

  lemma OnlyOneInside(c: Cluster, i: nat, j: nat)
    requires QueuesOk(c) && OneToken(c) && i in c.nodes && j in c.nodes && c.nodes[i].inCS && c.nodes[j].inCS
    ensures i == j
  {
    assert QueueOk(c.nodes[i]) && QueueOk(c.nodes[j]);
  }

  lemma EventsKeep(c: Cluster, c': Cluster, i: nat)
    requires QueuesOk(c) && OneToken(c) && EventsOk(c) && OneActs(c, c', i) && EventMoves(c, c', i)
    ensures EventsOk(c')
  {
    hide QueueOk, OneToken, QueuesOk;
    var e := c.past.events;
    if c.nodes[i].inCS {
      OnlyOneInside(c, i, e[|e| - 1].node);
    }
    forall j | j in c.nodes && c.nodes[j].inCS ensures |e| % 2 == 1 && j == e[|e| - 1].node {
      OnlyOneInside(c, j, e[|e| - 1].node);
    }
  }

  lemma TurnKeeps(c: Cluster, c': Cluster, i: nat)
    requires Inv(c) && OneActs(c, c', i) && TokenMoves(c, c', i) && QueueMoves(c, c', i) && EventMoves(c, c', i)
    ensures Inv(c')
  {
    hide OneToken, QueuesOk, InOrder, Fifo, EventsOk, TokenMoves, QueueMoves, EventMoves;
    WiringKeeps(c, c', i);
    TokenKeeps(c, c', i);
    FifoKeeps(c, c', i);
    EventsKeep(c, c', i);
  }

  // ---------- every action ----------

  ghost predicate Moves(c: Cluster, c': Cluster, i: nat) {
    OneActs(c, c', i) && TokenMoves(c, c', i) && QueueMoves(c, c', i) && EventMoves(c, c', i)
  }

  /** While the token flies, or its holder is idle, nobody is in a critical section. */
  lemma NobodyInside(c: Cluster)
    requires QueuesOk(c) && OneToken(c)
    requires c.past.place.Held? ==> !c.nodes[c.past.place.node].inCS
    ensures forall j :: j in c.nodes ==> !c.nodes[j].inCS
  {
    forall j | j in c.nodes ensures !c.nodes[j].inCS {
      assert QueueOk(c.nodes[j]);
    }
  }

  /** What the four kinds of turn need to know about the node that takes them. */
  lemma NodeFacts(c: Cluster, i: nat)
    requires Inv(c) && i in c.nodes
    ensures var s := c.nodes[i];
            QueueOk(s) && OnRing(s) && s.id == i && (s.hasToken <==> c.past.place == Held(i))
    ensures !c.nodes[i].inCS && c.nodes[i].hasToken ==> forall j :: j in c.nodes ==> !c.nodes[j].inCS
  {
    hide Fifo, EventsOk, InOrder;
    assert NodeWired(c.ring, i, c.nodes[i]);
    if !c.nodes[i].inCS && c.nodes[i].hasToken {
      NobodyInside(c);
    }
  }

  lemma ReceiveStep(c: Cluster, p: TokenPacket)
    requires Enabled(c, Receive(p))
    ensures var s, c', h := c.nodes[p.dst], Step(c, Receive(p)), c.past;
            var s1 := s.(hasToken := true, seqNum := p.seqNum);
            && c'.ring == c.ring && c'.flight == c.flight - multiset{p}
            && c'.nodes == c.nodes[p.dst := if s.waitQueue == [] then s1
                                            else Enter(s1.(waitQueue := s.waitQueue[1..]), s.waitQueue[0])]
            && c'.past == Chronicle(
                 Held(p.dst), h.visits + [p.dst],
                 if s.waitQueue == [] then h.events else h.events + [Granted(p.dst, s.waitQueue[0].requester)],
                 h.made,
                 if s.waitQueue == [] then h.served else h.served[p.dst := At(h.served, p.dst) + [s.waitQueue[0]]],
                 h.nextTicket)
  {
    assert c.past.events + [] == c.past.events;
  }

  /** The flying token lands; the first waiting caller, if there is one, enters. */
  ghost predicate Lands(c: Cluster, c': Cluster, i: nat)
    requires i in c.nodes
  {
    var s, h := c.nodes[i], c.past;
    && h.place.Flying? && h.place.packet.dst == i
    && var s1 := s.(hasToken := true, seqNum := h.place.packet.seqNum);
       && c'.ring == c.ring && c'.flight == c.flight - multiset{h.place.packet}
       && (s.waitQueue == [] ==>
             && c'.nodes == c.nodes[i := s1]
             && c'.past == h.(place := Held(i), visits := h.visits + [i]))
       && (s.waitQueue != [] ==>
             var r := s.waitQueue[0];
             && c'.nodes == c.nodes[i := Enter(s1.(waitQueue := s.waitQueue[1..]), r)]
             && c'.past == h.(place := Held(i), visits := h.visits + [i],
                              events := h.events + [Granted(i, r.requester)],
                              served := h.served[i := At(h.served, i) + [r]]))
  }

  lemma LandMoves(c: Cluster, c': Cluster, i: nat)
    requires i in c.nodes && Lands(c, c', i) && QueueOk(c.nodes[i])
    requires forall j :: j in c.nodes ==> !c.nodes[j].inCS
    ensures Moves(c, c', i)
  {
    assert OneActs(c, c', i);
    hide OneActs, QueueOk;
    assert TokenMoves(c, c', i);
    hide TokenMoves;
    assert QueueMoves(c, c', i);
    hide QueueMoves;
  }

  lemma LandingIsClear(c: Cluster, p: TokenPacket)
    requires Inv(c) && p in c.flight
    ensures c.past.place == Flying(p) && forall j :: j in c.nodes ==> !c.nodes[j].inCS
  {
    hide Wired, InOrder, EventsOk, Fifo;
    NobodyInside(c);
  }

  lemma ReceiveMoves(c: Cluster, p: TokenPacket)
    requires Inv(c) && Enabled(c, Receive(p))
    ensures Moves(c, Step(c, Receive(p)), p.dst) && Lands(c, Step(c, Receive(p)), p.dst)
  {
    hide Inv, Step, Moves;
    NodeFacts(c, p.dst);
    LandingIsClear(c, p);
    ReceiveStep(c, p);
    LandMoves(c, Step(c, Receive(p)), p.dst);
  }

  lemma TickStep(c: Cluster, i: nat)
    requires Enabled(c, Tick(i))
    ensures var s, c' := c.nodes[i], Step(c, Tick(i));
            c' == if s.hasToken && !s.inCS && s.waitQueue == []
                  then c.(nodes := c.nodes[i := s.(seqNum := s.seqNum + 1, hasToken := false)],
                          flight := c.flight + multiset{TokenPacket(NextNode(s), s.seqNum + 1)},
                          past := c.past.(place := Flying(TokenPacket(NextNode(s), s.seqNum + 1))))
                  else c
  {
    assert c.past.events + [] == c.past.events;
    assert c.nodes[i := c.nodes[i]] == c.nodes;
  }

  /** A turn that changes nothing is a move. */
  lemma StandingStill(c: Cluster, i: nat)
    requires i in c.nodes && QueueOk(c.nodes[i])
    ensures Moves(c, c, i)
  {
    assert c.nodes[i := c.nodes[i]] == c.nodes;
  }

  /** The holder hands the token to its successor. */
  ghost predicate Passes(c: Cluster, c': Cluster, i: nat)
    requires i in c.nodes
  {
    var s := c.nodes[i];
    && OnRing(s) && c.past.place == Held(i)
    && var p := TokenPacket(NextNode(s), s.seqNum + 1);
       && i in c'.nodes && c'.nodes == c.nodes[i := c'.nodes[i]]
       && c'.nodes[i] == s.(seqNum := p.seqNum, hasToken := false, inCS := false,
                            csHolder := c'.nodes[i].csHolder, csResource := c'.nodes[i].csResource)
       && c'.ring == c.ring && c'.flight == c.flight + multiset{p}
       && c'.past == c.past.(place := Flying(p), events := c'.past.events)
  }

  lemma PassMoves(c: Cluster, c': Cluster, i: nat)
    requires i in c.nodes && Passes(c, c', i) && c.nodes[i].waitQueue == []
    ensures OneActs(c, c', i) && TokenMoves(c, c', i) && QueueMoves(c, c', i)
  {
    assert OneActs(c, c', i);
    hide OneActs, QueueOk;
  }

  lemma TickMoves(c: Cluster, i: nat)
    requires Inv(c) && Enabled(c, Tick(i))
    ensures Moves(c, Step(c, Tick(i)), i)
    ensures if Idle(c.nodes[i]) then Passes(c, Step(c, Tick(i)), i) else Step(c, Tick(i)) == c
  {
    hide Inv, Step;
    NodeFacts(c, i);
    TickStep(c, i);
    if Idle(c.nodes[i]) {
      PassMoves(c, Step(c, Tick(i)), i);
      hide OneActs, QueueMoves, TokenMoves;
    } else {
      StandingStill(c, i);
    }
  }

  lemma AskStep(c: Cluster, i: nat, resource: string, requester: string)
    requires Enabled(c, Ask(i, resource, requester))
    ensures var s, c', h := c.nodes[i], Step(c, Ask(i, resource, requester)), c.past;
            var r := LockRequest(resource, requester, h.nextTicket);
            var now := s.hasToken && !s.inCS;
            && c'.ring == c.ring && c'.flight == c.flight
            && c'.nodes == c.nodes[i := if now then Enter(s, r) else s.(waitQueue := s.waitQueue + [r])]
            && c'.past == Chronicle(
                 h.place, h.visits,
                 if now then h.events + [Granted(i, requester)] else h.events,
                 h.made[i := At(h.made, i) + [r]],
                 if now then h.served[i := At(h.served, i) + [r]] else h.served,
                 h.nextTicket + 1)
  {
    assert c.past.events + [] == c.past.events;
  }

  /** A new request is granted on the spot when the token is idle here, and waits otherwise. */
  ghost predicate Calls(c: Cluster, c': Cluster, i: nat, r: LockRequest)
    requires i in c.nodes
  {
    var s, h := c.nodes[i], c.past;
    && r.ticket == h.nextTicket && c'.ring == c.ring && c'.flight == c.flight
    && (if s.hasToken && !s.inCS then
          && c'.nodes == c.nodes[i := Enter(s, r)]
          && c'.past == h.(events := h.events + [Granted(i, r.requester)], made := h.made[i := At(h.made, i) + [r]],
                           served := h.served[i := At(h.served, i) + [r]], nextTicket := h.nextTicket + 1)
        else
          && c'.nodes == c.nodes[i := s.(waitQueue := s.waitQueue + [r])]
          && c'.past == h.(made := h.made[i := At(h.made, i) + [r]], nextTicket := h.nextTicket + 1))
  }

  lemma CallMoves(c: Cluster, c': Cluster, i: nat, r: LockRequest)
    requires i in c.nodes && Calls(c, c', i, r) && QueueOk(c.nodes[i])
    requires c.nodes[i].hasToken && !c.nodes[i].inCS ==> forall j :: j in c.nodes ==> !c.nodes[j].inCS
    ensures Moves(c, c', i)
  {
    assert OneActs(c, c', i) && (c.nodes[i].hasToken && !c.nodes[i].inCS ==> c.nodes[i].waitQueue == []);
    hide OneActs, QueueOk;
    assert TokenMoves(c, c', i);
    hide TokenMoves;
    assert QueueMoves(c, c', i);
    hide QueueMoves;
  }

  lemma AskMoves(c: Cluster, i: nat, resource: string, requester: string)
    requires Inv(c) && Enabled(c, Ask(i, resource, requester))
    ensures Moves(c, Step(c, Ask(i, resource, requester)), i)
    ensures Calls(c, Step(c, Ask(i, resource, requester)), i, LockRequest(resource, requester, c.past.nextTicket))
  {
    hide Inv, Step, Moves;
    NodeFacts(c, i);
    AskStep(c, i, resource, requester);
    CallMoves(c, Step(c, Ask(i, resource, requester)), i, LockRequest(resource, requester, c.past.nextTicket));
  }

  lemma ReleaseStep(c: Cluster, i: nat, requester: string)
    requires Enabled(c, Release(i, requester))
    ensures var s, c', h := c.nodes[i], Step(c, Release(i, requester)), c.past;
            var s1 := s.(inCS := false, csHolder := "", csResource := "");
            if !s.inCS || s.csHolder != requester then c' == c
            else if s.waitQueue == [] then
              var p := TokenPacket(NextNode(s), s.seqNum + 1);
              c' == c.(nodes := c.nodes[i := s1.(seqNum := s.seqNum + 1, hasToken := false)],
                       flight := c.flight + multiset{p},
                       past := h.(place := Flying(p), events := h.events + [Released(i, requester)]))
            else
              var r := s.waitQueue[0];
              c' == c.(nodes := c.nodes[i := Enter(s1.(waitQueue := s.waitQueue[1..]), r)],
                       past := h.(events := h.events + [Released(i, requester), Granted(i, r.requester)],
                                  served := h.served[i := At(h.served, i) + [r]]))
  {
    assert c.past.events + [] == c.past.events;
    assert c.nodes[i := c.nodes[i]] == c.nodes;
  }

  /** The caller inside leaves and the next one of the same node's queue enters. */
  ghost predicate HandsOn(c: Cluster, c': Cluster, i: nat)
    requires i in c.nodes
  {
    var s, h := c.nodes[i], c.past;
    && s.inCS && s.waitQueue != [] && c'.ring == c.ring && c'.flight == c.flight
    && var r := s.waitQueue[0];
       && c'.nodes == c.nodes[i := Enter(s.(waitQueue := s.waitQueue[1..]), r)]
       && c'.past == h.(events := h.events + [Released(i, s.csHolder), Granted(i, r.requester)],
                        served := h.served[i := At(h.served, i) + [r]])
  }

  lemma HandOnMoves(c: Cluster, c': Cluster, i: nat)
    requires i in c.nodes && HandsOn(c, c', i) && QueueOk(c.nodes[i])
    ensures Moves(c, c', i)
  {
    assert OneActs(c, c', i);
    hide OneActs, QueueOk;
    assert TokenMoves(c, c', i);
    hide TokenMoves;
    assert QueueMoves(c, c', i);
    hide QueueMoves;
  }

  lemma ReleaseMoves(c: Cluster, i: nat, requester: string)
    requires Inv(c) && Enabled(c, Release(i, requester))
    ensures Moves(c, Step(c, Release(i, requester)), i)
    ensures var s, c' := c.nodes[i], Step(c, Release(i, requester));
            if !s.inCS || s.csHolder != requester then c' == c
            else if s.waitQueue == [] then Passes(c, c', i)
            else HandsOn(c, c', i)
  {
    hide Inv, Step;
    NodeFacts(c, i);
    ReleaseStep(c, i, requester);
    var s, c' := c.nodes[i], Step(c, Release(i, requester));
    if !s.inCS || s.csHolder != requester {
      StandingStill(c, i);
    } else if s.waitQueue == [] {
      PassMoves(c, c', i);
      hide OneActs, QueueMoves, TokenMoves;
    } else {
      hide Moves;
      HandOnMoves(c, c', i);
    }
  }

  lemma LossStep(c: Cluster, a: Action)
    requires Inv(c) && Enabled(c, a) && (a.Lose? || a.Kill?)
    ensures var c' := Step(c, a);
            && c' == c.(alive := c'.alive, flight := c'.flight, past := c.past.(place := c'.past.place))
            && (if a.Lose? then c'.flight == multiset{} && c'.past.place == Gone && c.past.place.Flying?
                else c'.flight == c.flight && c'.past.place == c.past.place)
  {
    hide NodeWired, QueueOk, Fifo, EventsOk, InOrder;
  }

  /** Whatever does not look at the token's place is kept when only that place changes. */
  lemma RestKeeps(c: Cluster, c': Cluster)
    requires Wired(c) && QueuesOk(c) && Fifo(c) && EventsOk(c)
    requires c' == c.(alive := c'.alive, flight := c'.flight, past := c.past.(place := c'.past.place))
    ensures Wired(c') && QueuesOk(c') && Fifo(c') && EventsOk(c')
  {
    hide NodeWired, QueueOk, Alternates, TicketsRise, Distinct;
    forall j | j in c.nodes ensures Queued(c', j) { assert Queued(c, j); }
  }

  lemma GoneKeeps(c: Cluster, c': Cluster)
    requires OneToken(c) && |c.ring| > 0 && InOrder(c) && c.past.place.Flying?
    requires c'.ring == c.ring && c'.nodes == c.nodes && c'.flight == multiset{}
    requires c'.past.place == Gone && c'.past.visits == c.past.visits
    ensures OneToken(c') && InOrder(c')
  {
    hide Station;
  }

  lemma KillKeeps(c: Cluster, c': Cluster)
    requires OneToken(c) && |c.ring| > 0 && InOrder(c)
    requires c' == c.(alive := c'.alive)
    ensures OneToken(c') && InOrder(c')
  {
    hide Station;
  }

  lemma LossKeeps(c: Cluster, a: Action)
    requires Inv(c) && Enabled(c, a) && (a.Lose? || a.Kill?)
    ensures Inv(Step(c, a))
  {
    LossStep(c, a);
    assert |c.ring| > 0;
    hide Wired, QueuesOk, OneToken, InOrder, Fifo, EventsOk, Step;
    RestKeeps(c, Step(c, a));
    if a.Lose? { GoneKeeps(c, Step(c, a)); } else { KillKeeps(c, Step(c, a)); }
  }

  lemma StepKeeps(c: Cluster, a: Action)
    requires Inv(c) && Enabled(c, a)
    ensures Inv(Step(c, a))
  {
    hide Inv, Step, Enabled, OneActs, TokenMoves, QueueMoves, EventMoves;
    match a {
      case Receive(p) => ReceiveMoves(c, p); TurnKeeps(c, Step(c, a), p.dst);
      case Tick(i) => TickMoves(c, i); TurnKeeps(c, Step(c, a), i);
      case Ask(i, resource, requester) => AskMoves(c, i, resource, requester); TurnKeeps(c, Step(c, a), i);
      case Release(i, requester) => ReleaseMoves(c, i, requester); TurnKeeps(c, Step(c, a), i);
      case _ => LossKeeps(c, a);
    }
  }

  lemma {:induction false} RunKeeps(c: Cluster, run: seq<Action>)
    requires Inv(c) && Possible(c, run)
    ensures Inv(Exec(c, run))
    decreases |run|
  {
    hide Inv, Step, Enabled;
    if run != [] {
      StepKeeps(c, run[0]);
      RunKeeps(Step(c, run[0]), run[1..]);
    }
  }
}
