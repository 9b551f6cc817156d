/** The token-ring module as the object it is. Methods return the request they grant and the token
    they pass on; waiting for a grant is the caller's business. */
module TokenRing {
  import opened Types
  import Model = RingModel
  import opened RingModel

  class TokenRingManager {
    const nodeID: nat
    const ringOrder: seq<nat>
    const ringIndex: int
    const stopCh: StopChannel
    var hasToken: bool
    var seqNum: int
    var inCS: bool
    var csHolder: string
    var csResource: string
    var waitQueue: seq<LockRequest>

    ghost function View(): RingState
      reads this
    {
      RingState(nodeID, ringOrder, ringIndex, hasToken, seqNum, inCS, csHolder, csResource, waitQueue)
    }

    ghost predicate Valid()
    {
      |ringOrder| > 0 && ringIndex >= -1
    }

    constructor (nodeID: nat, ringOrder: seq<nat>, initialHolder: nat)
      ensures View() == NewRing(nodeID, ringOrder, initialHolder)
      ensures |ringOrder| > 0 ==> Valid()
      ensures fresh(stopCh) && !stopCh.closed
    {
      var idx := -1;
      var i := 0;
      while i < |ringOrder|
        invariant 0 <= i <= |ringOrder| && idx == -1
        invariant var rest := IndexOf(ringOrder[i..], nodeID);
                  IndexOf(ringOrder, nodeID) == if rest == -1 then -1 else i + rest
      {
        if ringOrder[i] == nodeID {
          idx := i;
          break;
        }
        assert ringOrder[i..][1..] == ringOrder[i + 1..];
        i := i + 1;
      }
      this.nodeID, this.ringOrder, ringIndex := nodeID, ringOrder, idx;
      hasToken, seqNum, inCS := nodeID == initialHolder, 0, false;
      csHolder, csResource, waitQueue := "", "", [];
      stopCh := new StopChannel();
    }

    method Stop()
      modifies stopCh
      ensures stopCh.closed
    {
      if !stopCh.closed {
        stopCh.Close();
      }
    }

    method HandleTokenReceive(tok: int) returns (granted: Option<LockRequest>)
      modifies this
      ensures RingTurn(View(), granted, None, true) == Model.HandleTokenReceive(old(View()), tok)
    {
      hasToken := true;
      seqNum := tok;
      granted := None;
      if |waitQueue| > 0 {
        var req := waitQueue[0];
        waitQueue := waitQueue[1..];
        inCS := true;
        csHolder := req.requester;
        csResource := req.resource;
        granted := Some(req);
      }
    }

    method IdlePass() returns (passed: Option<TokenPacket>)
      requires Valid()
      modifies this
      ensures RingTurn(View(), None, passed, true) == Model.IdlePass(old(View()))
    {
      passed := None;
      if hasToken && !inCS && |waitQueue| == 0 {
        var p := PassTokenLocked();
        passed := Some(p);
      }
    }

    method PassTokenLocked() returns (passed: TokenPacket)
      requires Valid()
      modifies this`seqNum, this`hasToken
      ensures RingTurn(View(), None, Some(passed), true) == PassToken(old(View()))
    {
      var nextIdx := (ringIndex + 1) % |ringOrder|;
      var nextNode := ringOrder[nextIdx];
      seqNum := seqNum + 1;
      passed := TokenPacket(nextNode, seqNum);
      hasToken := false;
    }

    method RequestAccess(resource: string, requester: string, ticket: nat) returns (granted: Option<LockRequest>)
      modifies this
      ensures RingTurn(View(), granted, None, true) ==
              Model.RequestAccess(old(View()), LockRequest(resource, requester, ticket))
    {
      var req := LockRequest(resource, requester, ticket);
      if hasToken && !inCS {
        inCS := true;
        csHolder := requester;
        csResource := resource;
        return Some(req);
      }
      waitQueue := waitQueue + [req];
      granted := None;
    }

    method ReleaseAccess(requester: string)
      returns (ok: bool, granted: Option<LockRequest>, passed: Option<TokenPacket>)
      requires Valid()
      modifies this
      ensures RingTurn(View(), granted, passed, ok) == Model.ReleaseAccess(old(View()), requester)
    {
      granted, passed := None, None;
      if !inCS {
        return false, None, None;
      }
      if csHolder != requester {
        return false, None, None;
      }
      inCS := false;
      csHolder := "";
      csResource := "";
      ok := true;
      if |waitQueue| > 0 {
        var req := waitQueue[0];
        waitQueue := waitQueue[1..];
        inCS := true;
        csHolder := req.requester;
        csResource := req.resource;
        granted := Some(req);
        return;
      }
      var p := PassTokenLocked();
      passed := Some(p);
    }
  }
}
