/** One token-ring node as a value, and each of its methods as a function on that value. */
module RingModel {
  import opened Types

  /** A caller waiting for the critical section; the ticket stands for its response channel. */
  datatype LockRequest = LockRequest(resource: string, requester: string, ticket: nat)

  datatype TokenPacket = TokenPacket(dst: nat, seqNum: int)

  datatype RingState = RingState(
    id: nat,
    ring: seq<nat>,
    pos: int,
    hasToken: bool,
    seqNum: int,
    inCS: bool,
    csHolder: string,
    csResource: string,
    waitQueue: seq<LockRequest>)

  /** What a method did: the new state, the request it granted, the token it passed on, and, for a
      release, whether there was anything to release. */
  datatype RingTurn = RingTurn(state: RingState, granted: Option<LockRequest>, passed: Option<TokenPacket>, ok: bool)

  /** First position of a node in the ring, or -1. */
  function IndexOf(ring: seq<nat>, id: nat): (i: int)
    ensures i == -1 <==> id !in ring
    ensures i != -1 ==> 0 <= i < |ring| && ring[i] == id && id !in ring[..i]
  {
    if ring == [] then -1
    else if ring[0] == id then 0
    else
      var i := IndexOf(ring[1..], id);
      if i == -1 then -1
      else
        assert ring[..i + 1] == [ring[0]] + ring[1..][..i];
        i + 1
  }

  function NewRing(id: nat, ring: seq<nat>, initialHolder: nat): RingState {
    RingState(id, ring, IndexOf(ring, id), id == initialHolder, 0, false, "", "", [])
  }

  function Enter(s: RingState, req: LockRequest): RingState {
    s.(inCS := true, csHolder := req.requester, csResource := req.resource)
  }

  function HandleTokenReceive(s: RingState, seqNum: int): RingTurn {
    var s1 := s.(hasToken := true, seqNum := seqNum);
    if |s.waitQueue| > 0 then
      RingTurn(Enter(s1.(waitQueue := s.waitQueue[1..]), s.waitQueue[0]), Some(s.waitQueue[0]), None, true)
    else RingTurn(s1, None, None, true)
  }

  /** The successor on the ring; a node that is not on it hands over to the first. */
  function NextNode(s: RingState): nat
    requires |s.ring| > 0 && s.pos >= -1
  {
    s.ring[(s.pos + 1) % |s.ring|]
  }

  function PassToken(s: RingState): RingTurn
    requires |s.ring| > 0 && s.pos >= -1
  {
    RingTurn(s.(seqNum := s.seqNum + 1, hasToken := false), None, Some(TokenPacket(NextNode(s), s.seqNum + 1)), true)
  }

  predicate Idle(s: RingState) {
    s.hasToken && !s.inCS && s.waitQueue == []
  }

  function IdlePass(s: RingState): RingTurn
    requires |s.ring| > 0 && s.pos >= -1
  {
    if Idle(s) then PassToken(s) else RingTurn(s, None, None, true)
  }

  function RequestAccess(s: RingState, req: LockRequest): RingTurn {
    if s.hasToken && !s.inCS then RingTurn(Enter(s, req), Some(req), None, true)
    else RingTurn(s.(waitQueue := s.waitQueue + [req]), None, None, true)
  }

  function ReleaseAccess(s: RingState, requester: string): RingTurn
    requires |s.ring| > 0 && s.pos >= -1
  {
    if !s.inCS || s.csHolder != requester then RingTurn(s, None, None, false)
    else
      var s1 := s.(inCS := false, csHolder := "", csResource := "");
      if |s.waitQueue| > 0 then
        RingTurn(Enter(s1.(waitQueue := s.waitQueue[1..]), s.waitQueue[0]), Some(s.waitQueue[0]), None, true)
      else PassToken(s1)
  }
}
