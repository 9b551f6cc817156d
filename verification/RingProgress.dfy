/** How far a waiting request is from being granted, and how every turn of the ring brings it closer. */
module RingProgress {
  import opened Quorum
  import opened RingModel
  import opened RingCluster
  import opened RingSafety
  import opened RingLaws

  /** Ring hops to the waiting node, 1 while the token flies, and the local grants that come first. */
  datatype Distance = Distance(hops: nat, flying: nat, ahead: nat)

  predicate Closer(a: Distance, b: Distance) {
    || a.hops < b.hops
    || (a.hops == b.hops && a.flying < b.flying)
    || (a.hops == b.hops && a.flying == b.flying && a.ahead < b.ahead)
  }

  /** Steps around a ring of n places, from place a to place b. */
  function Between(n: nat, a: nat, b: nat): (d: nat)
    requires a < n && b < n
    ensures d < n && (d == 0 <==> a == b)
  {
    if b >= a then b - a else b + n - a
  }

  /** How many requests stand before this one. */
  function Ahead(q: seq<LockRequest>, r: LockRequest): nat
    requires r in q
  {
    if q[0] == r then 0 else 1 + Ahead(q[1..], r)
  }

  lemma {:induction false} AheadAppend(q: seq<LockRequest>, r: LockRequest, last: LockRequest)
    requires r in q
    ensures r in q + [last] && Ahead(q + [last], r) == Ahead(q, r)
  {
    assert (q + [last])[0] == q[0];
    if q[0] != r {
      assert (q + [last])[1..] == q[1..] + [last];
      AheadAppend(q[1..], r, last);
    }
  }

  ghost function Heading(c: Cluster): nat
    requires !c.past.place.Gone?
  {
    match c.past.place
    case Held(i) => i
    case Flying(p) => p.dst
  }

  /** Request r waits at node w, and the token is not lost. */
  ghost predicate Waits(c: Cluster, w: nat, r: LockRequest) {
    && Wired(c) && w in c.nodes && r in c.nodes[w].waitQueue
    && !c.past.place.Gone? && Heading(c) in c.nodes
  }

  ghost function Hops(c: Cluster, w: nat): nat
    requires Wired(c) && w in c.nodes && !c.past.place.Gone? && Heading(c) in c.nodes
  {
    assert NodeWired(c.ring, w, c.nodes[w]) && NodeWired(c.ring, Heading(c), c.nodes[Heading(c)]);
    Between(|c.ring|, c.nodes[Heading(c)].pos, c.nodes[w].pos)
  }

  ghost function DistanceOf(c: Cluster, w: nat, r: LockRequest): Distance
    requires Waits(c, w, r)
  {
    Distance(Hops(c, w),
             if c.past.place.Flying? then 1 else 0,
             if c.past.place.Flying? then 0
             else if Heading(c) == w then Ahead(c.nodes[w].waitQueue, r)
             else |c.nodes[Heading(c)].waitQueue|)
  }

  /** The turns that move the token or hand it on: a delivery, an idle pass, a release that succeeds. */
  predicate MovesOn(c: Cluster, a: Action)
    requires Enabled(c, a)
  {
    match a
    case Receive(_) => true
    case Tick(i) => Idle(c.nodes[i])
    case Release(i, requester) => c.nodes[i].inCS && c.nodes[i].csHolder == requester
    case _ => false
  }

  /** An arrival at the node that holds the token, when that is not the node we are waiting at. */
  predicate JoinsHolder(c: Cluster, a: Action, w: nat) {
    a.Ask? && c.past.place == Held(a.asker) && a.asker != w
  }

  ghost predicate GrantedNow(c: Cluster, c': Cluster, w: nat, r: LockRequest) {
    At(c'.past.served, w) == At(c.past.served, w) + [r]
  }

  // ---------- one turn ----------

  lemma OneHop(ring: seq<nat>, a: nat, b: nat, d: nat)
    requires Distinct(ring) && a < |ring| && b < |ring| && d < |ring| && a != b
    requires ring[d] == ring[(a + 1) % |ring|]
    ensures Between(|ring|, a, b) == Between(|ring|, d, b) + 1
  {
    if a + 1 == |ring| { assert (a + 1) % |ring| == 0; } else { assert (a + 1) % |ring| == a + 1; }
  }

  /** The successor's place on the ring. */
  lemma Successor(c: Cluster, i: nat)
    requires Wired(c) && i in c.nodes
    ensures OnRing(c.nodes[i]) && NextNode(c.nodes[i]) in c.nodes && c.nodes[i].pos < |c.ring| && c.nodes[i].pos >= 0
    ensures var d := c.nodes[NextNode(c.nodes[i])].pos;
            0 <= d < |c.ring| && c.ring[d] == c.ring[(c.nodes[i].pos + 1) % |c.ring|]
  {
    assert NodeWired(c.ring, i, c.nodes[i]);
    var d := NextNode(c.nodes[i]);
    assert d in c.ring;
    assert NodeWired(c.ring, d, c.nodes[d]);
  }

  lemma SamePlaces(c: Cluster, w: nat, i: nat)
    requires Wired(c) && w in c.nodes && i in c.nodes
    ensures 0 <= c.nodes[w].pos < |c.ring| && 0 <= c.nodes[i].pos < |c.ring| && Distinct(c.ring)
    ensures c.nodes[w].pos == c.nodes[i].pos ==> w == i
  {
    assert NodeWired(c.ring, w, c.nodes[w]) && NodeWired(c.ring, i, c.nodes[i]);
  }

  lemma PassHop(c: Cluster, c': Cluster, i: nat, w: nat, r: LockRequest)
    requires Waits(c, w, r) && Wired(c') && i in c.nodes && Passes(c, c', i) && c.nodes[i].waitQueue == []
    ensures w in c'.nodes && c'.past.place.Flying? && Heading(c') in c'.nodes && Hops(c', w) + 1 == Hops(c, w)
  {
    hide Wired, NextNode, Distinct;
    Successor(c, i);
    SamePlaces(c, w, i);
    var d := Heading(c');
    assert c'.nodes[d].pos == c.nodes[d].pos && c'.nodes[w].pos == c.nodes[w].pos;
    OneHop(c.ring, c.nodes[i].pos, c.nodes[w].pos, c.nodes[d].pos);
  }

  /** The token leaves a node where nobody waits. */
  lemma PassIsCloser(c: Cluster, c': Cluster, i: nat, w: nat, r: LockRequest)
    requires Waits(c, w, r) && Wired(c') && i in c.nodes && Passes(c, c', i) && c.nodes[i].waitQueue == []
    ensures Waits(c', w, r) && Hops(c', w) + 1 == Hops(c, w) && Closer(DistanceOf(c', w, r), DistanceOf(c, w, r))
  {
    PassHop(c, c', i, w, r);
    hide Hops, Wired;
  }

  lemma LandIsCloser(c: Cluster, c': Cluster, i: nat, w: nat, r: LockRequest)
    requires Waits(c, w, r) && Wired(c') && i in c.nodes && Lands(c, c', i)
    ensures || GrantedNow(c, c', w, r)
            || (&& Waits(c', w, r) && Hops(c', w) == Hops(c, w)
                && Closer(DistanceOf(c', w, r), DistanceOf(c, w, r)))
  {
    hide NodeWired;
    var q := c.nodes[w].waitQueue;
    if i == w && q[0] != r { assert r in q[1..]; }
  }

  lemma HandOnIsCloser(c: Cluster, c': Cluster, i: nat, w: nat, r: LockRequest)
    requires Waits(c, w, r) && Wired(c') && i in c.nodes && HandsOn(c, c', i) && c.past.place == Held(i)
    ensures || GrantedNow(c, c', w, r)
            || (&& Waits(c', w, r) && Hops(c', w) == Hops(c, w)
                && Closer(DistanceOf(c', w, r), DistanceOf(c, w, r)))
  {
    hide NodeWired;
    var q := c.nodes[w].waitQueue;
    if i == w && q[0] != r { assert r in q[1..]; }
  }

  lemma CallKeepsDistance(c: Cluster, c': Cluster, i: nat, w: nat, r: LockRequest, caller: LockRequest)
    requires Waits(c, w, r) && Wired(c') && i in c.nodes && Calls(c, c', i, caller)
    ensures Waits(c', w, r) && Hops(c', w) == Hops(c, w)
    ensures !(c.past.place == Held(i) && i != w) ==> DistanceOf(c', w, r) == DistanceOf(c, w, r)
  {
    hide NodeWired;
    AheadAppend(c.nodes[w].waitQueue, r, caller);
  }

  /** Every turn of a lossless ring grants the request, brings it strictly closer, or leaves its distance
      alone; only an arrival at the node that holds the token can push it back. */
  lemma TurnBringsCloser(c: Cluster, a: Action, w: nat, r: LockRequest)
    requires Inv(c) && Enabled(c, a) && !a.Lose? && Waits(c, w, r)
    ensures var c' := Step(c, a);
            || GrantedNow(c, c', w, r)
            || (&& Waits(c', w, r)
                && (MovesOn(c, a) ==> Closer(DistanceOf(c', w, r), DistanceOf(c, w, r)))
                && (!MovesOn(c, a) && !JoinsHolder(c, a, w) ==> DistanceOf(c', w, r) == DistanceOf(c, w, r)))
  {
    var c' := Step(c, a);
    StepKeeps(c, a);
    SoundParts(c);
    SoundParts(c');
    hide Inv, Step, Waits, Wired, DistanceOf, Closer, GrantedNow, OneActs, TokenMoves, QueueMoves, EventMoves, Moves;
    match a {
      case Receive(p) => ReceiveMoves(c, p); LandIsCloser(c, c', p.dst, w, r);
      case Tick(i) =>
        TickMoves(c, i);
        if Idle(c.nodes[i]) { PassIsCloser(c, c', i, w, r); }
      case Ask(i, resource, requester) =>
        AskMoves(c, i, resource, requester);
        CallKeepsDistance(c, c', i, w, r, LockRequest(resource, requester, c.past.nextTicket));
      case Release(i, requester) =>
        ReleaseMoves(c, i, requester);
        if c.nodes[i].inCS && c.nodes[i].csHolder == requester {
          if c.nodes[i].waitQueue == [] { PassIsCloser(c, c', i, w, r); }
          else { NodeFacts(c, i); HandOnIsCloser(c, c', i, w, r); }
        }
      case Kill(i) => KillKeepsDistance(c, i, w, r);
    }
  }

  lemma SoundParts(c: Cluster)
    requires Inv(c)
    ensures Wired(c)
  {
  }

  lemma KillKeepsDistance(c: Cluster, i: nat, w: nat, r: LockRequest)
    requires Waits(c, w, r) && Enabled(c, Kill(i))
    ensures Waits(Step(c, Kill(i)), w, r) && DistanceOf(Step(c, Kill(i)), w, r) == DistanceOf(c, w, r)
  {
    hide NodeWired;
  }

  // ---------- a bound on the turns until the grant ----------

  /** All requests waiting at the nodes of a list. */
  function Queue(ring: seq<nat>, nodes: map<nat, RingState>): nat {
    if ring == [] then 0
    else (if ring[0] in nodes then |nodes[ring[0]].waitQueue| else 0) + Queue(ring[1..], nodes)
  }

  lemma {:induction false} QueueElsewhere(ring: seq<nat>, nodes: map<nat, RingState>, i: nat, s: RingState)
    requires i !in ring
    ensures Queue(ring, nodes[i := s]) == Queue(ring, nodes)
  {
    if ring != [] { QueueElsewhere(ring[1..], nodes, i, s); }
  }

  lemma {:induction false} QueueChanges(ring: seq<nat>, nodes: map<nat, RingState>, i: nat, s: RingState)
    requires Distinct(ring) && i in ring && i in nodes
    ensures Queue(ring, nodes[i := s]) + |nodes[i].waitQueue| == Queue(ring, nodes) + |s.waitQueue|
  {
    if ring[0] == i { QueueElsewhere(ring[1..], nodes, i, s); } else { QueueChanges(ring[1..], nodes, i, s); }
  }

  /** Two turns for each hop that is left, and one for each request that waits anywhere. */
  ghost function Budget(c: Cluster, w: nat): nat
    requires Wired(c) && w in c.nodes && !c.past.place.Gone? && Heading(c) in c.nodes
  {
    2 * Hops(c, w) + (if c.past.place.Flying? then 1 else 0) + Queue(c.ring, c.nodes)
  }

  lemma BudgetFalls(c: Cluster, a: Action, w: nat, r: LockRequest)
    requires Inv(c) && Enabled(c, a) && !a.Lose? && Waits(c, w, r)
    ensures var c' := Step(c, a);
            || GrantedNow(c, c', w, r)
            || (&& Waits(c', w, r)
                && Budget(c', w) + (if MovesOn(c, a) then 1 else 0) <= Budget(c, w) + (if a.Ask? then 1 else 0))
  {
    var c' := Step(c, a);
    StepKeeps(c, a);
    SoundParts(c);
    SoundParts(c');
    hide Inv, Step, Waits, Wired, DistanceOf, Closer, GrantedNow, Budget;
    hide OneActs, TokenMoves, QueueMoves, EventMoves, Moves;
    match a {
      case Receive(p) => ReceiveMoves(c, p); LandBudget(c, c', p.dst, w, r);
      case Tick(i) =>
        TickMoves(c, i);
        if Idle(c.nodes[i]) { PassBudget(c, c', i, w, r); }
      case Ask(i, resource, requester) =>
        AskMoves(c, i, resource, requester);
        CallBudget(c, c', i, w, r, LockRequest(resource, requester, c.past.nextTicket));
      case Release(i, requester) =>
        ReleaseMoves(c, i, requester);
        if c.nodes[i].inCS && c.nodes[i].csHolder == requester {
          if c.nodes[i].waitQueue == [] { PassBudget(c, c', i, w, r); }
          else { NodeFacts(c, i); HandOnBudget(c, c', i, w, r); }
        }
      case Kill(i) => KillBudget(c, i, w, r);
    }
  }

  lemma PassBudget(c: Cluster, c': Cluster, i: nat, w: nat, r: LockRequest)
    requires Waits(c, w, r) && Wired(c') && i in c.nodes && Passes(c, c', i) && c.nodes[i].waitQueue == []
    ensures Waits(c', w, r) && Budget(c', w) + 1 <= Budget(c, w)
  {
    PassIsCloser(c, c', i, w, r);
    QueueChanges(c.ring, c.nodes, i, c'.nodes[i]);
    hide Hops, NodeWired, Waits;
  }

  lemma LandBudget(c: Cluster, c': Cluster, i: nat, w: nat, r: LockRequest)
    requires Waits(c, w, r) && Wired(c') && i in c.nodes && Lands(c, c', i)
    ensures GrantedNow(c, c', w, r) || (Waits(c', w, r) && Budget(c', w) + 1 <= Budget(c, w))
  {
    LandIsCloser(c, c', i, w, r);
    QueueChanges(c.ring, c.nodes, i, c'.nodes[i]);
    hide Hops, NodeWired, Waits, GrantedNow;
  }

  lemma HandOnBudget(c: Cluster, c': Cluster, i: nat, w: nat, r: LockRequest)
    requires Waits(c, w, r) && Wired(c') && i in c.nodes && HandsOn(c, c', i) && c.past.place == Held(i)
    ensures GrantedNow(c, c', w, r) || (Waits(c', w, r) && Budget(c', w) + 1 <= Budget(c, w))
  {
    HandOnIsCloser(c, c', i, w, r);
    QueueChanges(c.ring, c.nodes, i, c'.nodes[i]);
    hide Hops, NodeWired, Waits, GrantedNow;
  }

  lemma CallBudget(c: Cluster, c': Cluster, i: nat, w: nat, r: LockRequest, caller: LockRequest)
    requires Waits(c, w, r) && Wired(c') && i in c.nodes && Calls(c, c', i, caller)
    ensures Waits(c', w, r) && Budget(c', w) <= Budget(c, w) + 1
  {
    CallKeepsDistance(c, c', i, w, r, caller);
    QueueChanges(c.ring, c.nodes, i, c'.nodes[i]);
    hide Hops, NodeWired, Waits;
  }

  lemma KillBudget(c: Cluster, i: nat, w: nat, r: LockRequest)
    requires Waits(c, w, r) && Enabled(c, Kill(i))
    ensures Waits(Step(c, Kill(i)), w, r) && Budget(Step(c, Kill(i)), w) == Budget(c, w)
  {
    hide NodeWired;
  }

  /** How many turns of a run move the token or hand it on. */
  function TurnsIn(c: Cluster, run: seq<Action>): nat
    requires Possible(c, run)
    decreases |run|
  {
    if run == [] then 0
    else (if MovesOn(c, run[0]) then 1 else 0) + TurnsIn(Step(c, run[0]), run[1..])
  }

  function AsksIn(run: seq<Action>): nat {
    if run == [] then 0 else (if run[0].Ask? then 1 else 0) + AsksIn(run[1..])
  }

  lemma ServedGrows(c: Cluster, a: Action, w: nat, r: LockRequest)
    requires Inv(c) && Enabled(c, a) && r in At(c.past.served, w)
    ensures r in At(Step(c, a).past.served, w)
  {
    hide Inv, Turn, OnRing;
  }

  lemma {:induction false} ServedStays(c: Cluster, run: seq<Action>, w: nat, r: LockRequest)
    requires Inv(c) && Possible(c, run) && r in At(c.past.served, w)
    ensures r in At(Exec(c, run).past.served, w)
    decreases |run|
  {
    hide Inv, Step, Enabled, At;
    if run != [] {
      StepKeeps(c, run[0]);
      ServedGrows(c, run[0], w, r);
      ServedStays(Step(c, run[0]), run[1..], w, r);
    }
  }

  /** On a lossless ring a waiting request is granted before the token has made more turns than the budget
      plus the number of requests that arrive meanwhile, wherever they arrive. */
  lemma {:induction false} GrantedWithinBudget(c: Cluster, run: seq<Action>, w: nat, r: LockRequest)
    requires Inv(c) && Waits(c, w, r) && Possible(c, run) && Lossless(run)
    requires TurnsIn(c, run) > Budget(c, w) + AsksIn(run)
    ensures r in At(Exec(c, run).past.served, w)
    decreases |run|
  {
    if run != [] {
      var c' := Step(c, run[0]);
      BudgetFalls(c, run[0], w, r);
      StepKeeps(c, run[0]);
      LosslessTail(run);
      hide Inv, Step, Enabled, Waits, Budget, Lossless, MovesOn, Wired;
      if GrantedNow(c, c', w, r) {
        hide TurnsIn;
        ServedStays(c', run[1..], w, r);
      } else {
        hide GrantedNow;
        GrantedWithinBudget(c', run[1..], w, r);
      }
    }
  }

  lemma StillWaits(c: Cluster, w: nat, r: LockRequest)
    requires Wired(c) && OneToken(c) && !c.past.place.Gone? && w in c.nodes && r in c.nodes[w].waitQueue
    ensures Waits(c, w, r) && Budget(c, w) <= 2 * |c.ring| + Queue(c.ring, c.nodes)
  {
    assert NodeWired(c.ring, w, c.nodes[w]) && NodeWired(c.ring, Heading(c), c.nodes[Heading(c)]);
    assert Hops(c, w) < |c.ring|;
  }

  /** Every request that still waits after a lossless run from freshly built nodes is granted once the token
      has made 2n turns, and one more for each request that waits already or arrives meanwhile. */
  lemma WaitIsBounded(c0: Cluster, run: seq<Action>, c: Cluster, more: seq<Action>, w: nat, r: LockRequest)
    requires Reached(c0, run, c) && Lossless(run) && w in c.nodes && r in c.nodes[w].waitQueue
    requires Possible(c, more) && Lossless(more)
    requires TurnsIn(c, more) > 2 * |c.ring| + Queue(c.ring, c.nodes) + AsksIn(more)
    ensures r in At(Exec(c, more).past.served, w)
  {
    ReachedIsSound(c0, run, c);
    FreshIsSound(c0);
    GoneIffLost(c0, run);
    assert Wired(c) && OneToken(c) && !c.past.place.Gone?;
    hide *;
    StillWaits(c, w, r);
    GrantedWithinBudget(c, more, w, r);
  }

  // ---------- why the arrivals have to be counted ----------

  /** A caller is inside at node h with nobody behind it, while r waits at another node w. */
  ghost predicate Occupied(c: Cluster, h: nat, caller: string, w: nat, r: LockRequest) {
    && h in c.nodes && w in c.nodes && h != w && OnRing(c.nodes[h])
    && c.nodes[h].inCS && c.nodes[h].csHolder == caller && c.nodes[h].waitQueue == []
    && r in c.nodes[w].waitQueue
  }

  /** The same caller asks again and then releases, any number of times. */
  function Hogging(h: nat, caller: string, k: nat): seq<Action> {
    if k == 0 then [] else [Ask(h, "", caller), Release(h, caller)] + Hogging(h, caller, k - 1)
  }

  lemma HogOnce(c: Cluster, h: nat, caller: string, w: nat, r: LockRequest)
    requires Occupied(c, h, caller, w, r)
    ensures Enabled(c, Ask(h, "", caller))
    ensures var c1 := Step(c, Ask(h, "", caller));
            && Enabled(c1, Release(h, caller)) && MovesOn(c1, Release(h, caller))
            && Occupied(Step(c1, Release(h, caller)), h, caller, w, r)
  {
  }

  /** A node can keep the token for as long as its callers come back before they leave: for every k there is
      a lossless run with k successful releases after which r still waits at the other node. */
  lemma {:induction false} StarvationIsPossible(c: Cluster, h: nat, caller: string, w: nat, r: LockRequest, k: nat)
    requires Occupied(c, h, caller, w, r)
    ensures var run := Hogging(h, caller, k);
            && Lossless(run) && Possible(c, run) && TurnsIn(c, run) == k && AsksIn(run) == k
            && Occupied(Exec(c, run), h, caller, w, r)
    decreases k
  {
    hide Step, Enabled, Occupied, Lossless, MovesOn;
    var run := Hogging(h, caller, k);
    if k == 0 {
      LosslessTail(run);
    } else {
      HogOnce(c, h, caller, w, r);
      var c1 := Step(c, Ask(h, "", caller));
      var c2 := Step(c1, Release(h, caller));
      StarvationIsPossible(c2, h, caller, w, r, k - 1);
      var rest := Hogging(h, caller, k - 1);
      assert run[1..] == [Release(h, caller)] + rest && run[1..][1..] == rest;
      LosslessTail(run);
      LosslessTail(run[1..]);
      assert Possible(c1, run[1..]) && Possible(c, run);
      assert TurnsIn(c1, run[1..]) == 1 + TurnsIn(c2, rest) && AsksIn(run[1..]) == AsksIn(rest);
      assert TurnsIn(c, run) == TurnsIn(c1, run[1..]) by { AskMovesNothing(c, h, caller); }
    }
  }

  lemma AskMovesNothing(c: Cluster, h: nat, caller: string)
    requires Enabled(c, Ask(h, "", caller))
    ensures !MovesOn(c, Ask(h, "", caller))
  {
  }

  /** Freshly built nodes get there in two requests, whenever the ring has a second node. */
  lemma OccupiedIsReachable(c0: Cluster, w: nat)
    requires Fresh(c0) && w in c0.nodes && w != c0.ring[0]
    ensures var run := [Ask(c0.ring[0], "", "first"), Ask(w, "", "second")];
            Possible(c0, run) && Occupied(Exec(c0, run), c0.ring[0], "first", w, LockRequest("", "second", 1))
  {
    var h, a, b := c0.ring[0], Ask(c0.ring[0], "", "first"), Ask(w, "", "second");
    var c1 := Step(c0, a);
    var c2 := Step(c1, b);
    assert h in c0.ring && c1.nodes[h].inCS && c1.nodes[w] == NewRing(w, c0.ring, h);
    assert [a, b][1..] == [b] && [b][1..] == [];
    assert c2.nodes[w].waitQueue == [LockRequest("", "second", 1)];
    assert Possible(c2, []) && Exec(c2, []) == c2;
    assert Possible(c1, [b]) && Exec(c1, [b]) == c2;
  }
}
