/** What the lock promises, for every run that starts with freshly built nodes. */
module RingLaws {
  import opened Quorum
  import opened RingCluster
  import opened RingSafety

  ghost predicate Reached(c0: Cluster, run: seq<Action>, c: Cluster) {
    Fresh(c0) && Possible(c0, run) && c == Exec(c0, run)
  }

  lemma ReachedIsSound(c0: Cluster, run: seq<Action>, c: Cluster)
    requires Reached(c0, run, c)
    ensures Inv(c)
  {
    FreshIsSound(c0);
    RunKeeps(c0, run);
  }

  // ---------- how many tokens there are ----------

  function Holders(c: Cluster): set<nat> {
    set i | i in c.nodes && c.nodes[i].hasToken
  }

  predicate Lossless(run: seq<Action>) {
    forall k :: 0 <= k < |run| ==> !run[k].Lose?
  }

  lemma LosslessTail(run: seq<Action>)
    ensures Lossless(run) <==> run == [] || (!run[0].Lose? && Lossless(run[1..]))
  {
    assert forall k :: 0 < k < |run| ==> run[k] == run[1..][k - 1];
  }

  lemma PlaceAfter(c: Cluster, a: Action)
    requires Inv(c) && Enabled(c, a)
    ensures Step(c, a).past.place.Gone? <==> c.past.place.Gone? || a.Lose?
  {
    hide Wired, Fifo, EventsOk, InOrder;
    if a.Receive? || a.Lose? || a.Kill? {
    } else {
      assert QueueOk(c.nodes[Actor(a)]);
    }
    if a.Receive? { LandingIsClear(c, a.packet); }
  }

  lemma {:induction false} GoneIffLost(c: Cluster, run: seq<Action>)
    requires Inv(c) && Possible(c, run)
    ensures Exec(c, run).past.place.Gone? <==> c.past.place.Gone? || !Lossless(run)
    decreases |run|
  {
    hide Inv, Step, Enabled, Lossless;
    LosslessTail(run);
    if run == [] {
      assert Exec(c, run) == c;
    } else {
      PlaceAfter(c, run[0]);
      StepKeeps(c, run[0]);
      GoneIffLost(Step(c, run[0]), run[1..]);
      assert Exec(c, run) == Exec(Step(c, run[0]), run[1..]);
    }
  }

  /** Tokens held plus tokens in flight: exactly one until a message is lost, none afterwards. */
  lemma TokensCount(c0: Cluster, run: seq<Action>, c: Cluster)
    requires Reached(c0, run, c)
    ensures |Holders(c)| + |c.flight| == if Lossless(run) then 1 else 0
  {
    ReachedIsSound(c0, run, c);
    FreshIsSound(c0);
    GoneIffLost(c0, run);
    assert OneToken(c) && (c.past.place.Gone? <==> !Lossless(run));
    hide *;
    CountAt(c);
  }

  lemma CountAt(c: Cluster)
    requires OneToken(c)
    ensures |Holders(c)| + |c.flight| == if c.past.place.Gone? then 0 else 1
  {
    match c.past.place {
      case Held(i) => assert Holders(c) == {i};
      case Flying(_) => assert Holders(c) == {};
      case Gone => assert Holders(c) == {};
    }
  }

  // ---------- the critical section ----------

  lemma InsideHolds(c: Cluster, i: nat)
    requires QueuesOk(c) && OneToken(c) && i in c.nodes && c.nodes[i].inCS
    ensures Holders(c) == {i} && c.flight == multiset{}
  {
    assert QueueOk(c.nodes[i]);
  }

  /** At most one node is in its critical section, it has the token, and no token is on its way. */
  lemma MutualExclusion(c0: Cluster, run: seq<Action>, c: Cluster, i: nat, j: nat)
    requires Reached(c0, run, c) && i in c.nodes && j in c.nodes && c.nodes[i].inCS
    ensures Holders(c) == {i} && c.flight == multiset{}
    ensures c.nodes[j].inCS ==> i == j
  {
    ReachedIsSound(c0, run, c);
    assert QueuesOk(c) && OneToken(c) by { hide Reached; }
    hide *;
    InsideHolds(c, i);
    if c.nodes[j].inCS { OnlyOneInside(c, i, j); }
  }

  lemma OpenGrant(c: Cluster, i: nat)
    requires QueuesOk(c) && OneToken(c) && EventsOk(c) && i in c.nodes
    ensures var e := c.past.events;
            c.nodes[i].inCS <==> e != [] && e[|e| - 1] == Granted(i, c.nodes[i].csHolder)
  {
    hide QueueOk, QueuesOk, OneToken;
    if c.nodes[i].inCS { OnlyOneInside(c, i, c.past.events[|c.past.events| - 1].node); }
  }

  /** Over the whole cluster a grant is followed by its own release before the next grant, and a grant is
      still open exactly when its node is inside its critical section for that caller. */
  lemma GrantsAndReleasesAlternate(c0: Cluster, run: seq<Action>, c: Cluster)
    requires Reached(c0, run, c)
    ensures var e := c.past.events;
            && (forall k :: 0 <= k < |e| ==> (e[k].Granted? <==> k % 2 == 0))
            && (forall k :: 0 < k < |e| && e[k].Released? ==> e[k - 1] == Granted(e[k].node, e[k].requester))
            && forall i :: i in c.nodes ==>
                 (c.nodes[i].inCS <==> e != [] && e[|e| - 1] == Granted(i, c.nodes[i].csHolder))
  {
    ReachedIsSound(c0, run, c);
    assert QueuesOk(c) && OneToken(c) && EventsOk(c) && Alternates(c.past.events);
    hide Reached, Inv, QueuesOk, OneToken, EventsOk;
    forall i | i in c.nodes
      ensures c.nodes[i].inCS <==>
              c.past.events != [] && c.past.events[|c.past.events| - 1] == Granted(i, c.nodes[i].csHolder)
    {
      OpenGrant(c, i);
    }
  }

  // ---------- the sequence number ----------

  /** A token with sequence number s belongs to ring position s mod n, and no node knows a larger number. */
  lemma SequencePinsToken(c0: Cluster, run: seq<Action>, c: Cluster)
    requires Reached(c0, run, c)
    ensures |c.ring| > 0
    ensures forall i :: i in c.nodes && c.nodes[i].hasToken ==>
              c.nodes[i].seqNum >= 0 && i == Station(c.ring, c.nodes[i].seqNum)
              && forall j :: j in c.nodes ==> c.nodes[j].seqNum <= c.nodes[i].seqNum
    ensures forall p :: p in c.flight ==>
              && p.seqNum >= 0 && p.dst == Station(c.ring, p.seqNum)
              && forall j :: j in c.nodes ==> c.nodes[j].seqNum <= p.seqNum
  {
    ReachedIsSound(c0, run, c);
    assert |c.ring| > 0 && OneToken(c) && InOrder(c);
    hide *;
    PinnedAt(c);
  }

  lemma PinnedAt(c: Cluster)
    requires |c.ring| > 0 && OneToken(c) && InOrder(c)
    ensures forall i :: i in c.nodes && c.nodes[i].hasToken ==>
              c.nodes[i].seqNum >= 0 && i == Station(c.ring, c.nodes[i].seqNum)
              && forall j :: j in c.nodes ==> c.nodes[j].seqNum <= c.nodes[i].seqNum
    ensures forall p :: p in c.flight ==>
              && p.seqNum >= 0 && p.dst == Station(c.ring, p.seqNum)
              && forall j :: j in c.nodes ==> c.nodes[j].seqNum <= p.seqNum
  {
    hide Station;
  }

  lemma StationsRepeat(ring: seq<nat>, k: nat, l: nat)
    requires |ring| > 0 && Distinct(ring) && k <= l < k + |ring|
    ensures Station(ring, k) == Station(ring, l) <==> k == l
    ensures Station(ring, k + |ring|) == Station(ring, k)
  {
    var n := |ring|;
    ModPlus(k, n);
    if k % n == l % n {
      assert k == n * (k / n) + k % n && l == n * (l / n) + l % n;
      var d := l / n - k / n;
      assert n * d == n * (l / n) - n * (k / n);
      NoSmallMultiple(n, d);
    }
  }

  /** Every node is one of the n stations from k on. */
  lemma EveryNodeIsAStation(ring: seq<nat>, k: nat, j: nat) returns (m: nat)
    requires |ring| > 0 && j in ring
    ensures k <= m < k + |ring| && Station(ring, m) == j
  {
    var n := |ring|;
    var at :| 0 <= at < n && ring[at] == j;
    m := if at >= k % n then k + (at - k % n) else k + (at + n - k % n);
    StationAt(k, n, at, m);
  }

  lemma StationAt(k: nat, n: nat, at: nat, m: nat)
    requires n > 0 && at < n && m == (if at >= k % n then k + (at - k % n) else k + (at + n - k % n))
    ensures m % n == at && k <= m < k + n
  {
    var q := if at >= k % n then k / n else k / n + 1;
    assert k == n * (k / n) + k % n;
    assert n * (k / n + 1) == n * (k / n) + n;
    ModIs(m, n, q, at);
  }

  /** Between two consecutive possessions by one node, every other node has the token exactly once. */
  lemma EveryoneInBetween(c0: Cluster, run: seq<Action>, c: Cluster, k: nat, l: nat, j: nat) returns (m: nat)
    requires Reached(c0, run, c) && k < l < |c.past.visits| && j in c.nodes
    requires c.past.visits[k] == c.past.visits[l] != j
    requires forall x :: k < x < l ==> c.past.visits[x] != c.past.visits[k]
    ensures l == k + |c.ring|
    ensures k < m < l && c.past.visits[m] == j
    ensures forall x :: k < x < l && c.past.visits[x] == j ==> x == m
  {
    ReachedIsSound(c0, run, c);
    assert Wired(c) && InOrder(c) && j in c.ring;
    hide Reached, Inv;
    m := RoundTrip(c.ring, c.past.visits, k, l, j);
  }

  /** A walk around the ring returns after n steps, having met everyone else once. */
  lemma RoundTrip(ring: seq<nat>, v: seq<nat>, k: nat, l: nat, j: nat) returns (m: nat)
    requires |ring| > 0 && Distinct(ring) && j in ring && k < l < |v|
    requires forall x :: 0 <= x < |v| ==> v[x] == Station(ring, x)
    requires v[k] == v[l] != j && forall x :: k < x < l ==> v[x] != v[k]
    ensures l == k + |ring| && k < m < l && v[m] == j
    ensures forall x :: k < x < l && v[x] == j ==> x == m
  {
    hide Station;
    StationsRepeat(ring, k, k);
    if l < k + |ring| {
      StationsRepeat(ring, k, l);
      assert false;
    }
    m := EveryNodeIsAStation(ring, k, j);
    forall x | k < x < l && v[x] == j ensures x == m {
      if x < m { StationsRepeat(ring, x, m); } else { StationsRepeat(ring, m, x); }
    }
  }

  // ---------- the queues ----------

  /** At every node the requests made are the requests granted followed by those that wait, in the same
      order, and no request occurs twice: each is granted at most once and in its turn. A node is in its
      critical section for the caller and the resource of the request it granted last. */
  lemma FirstComeFirstServed(c0: Cluster, run: seq<Action>, c: Cluster, i: nat)
    requires Reached(c0, run, c) && i in c.nodes
    ensures At(c.past.made, i) == At(c.past.served, i) + c.nodes[i].waitQueue
    ensures forall k, l :: 0 <= k < l < |At(c.past.made, i)| ==> At(c.past.made, i)[k] != At(c.past.made, i)[l]
    ensures c.nodes[i].hasToken && !c.nodes[i].inCS ==> At(c.past.served, i) == At(c.past.made, i)
    ensures c.nodes[i].inCS ==> LastServed(c.nodes[i], At(c.past.served, i))
  {
    ReachedIsSound(c0, run, c);
    hide NodeWired, InOrder, EventsOk, Possible, Exec, OneToken;
    assert Queued(c, i) && QueueOk(c.nodes[i]);
  }
}
