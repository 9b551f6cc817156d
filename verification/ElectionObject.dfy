/** The election module as the object it is. Each method returns what it passes to a callback. */
module ElectionObject {
  import opened Types
  import opened Quorum
  import Model = ElectionModel

  class ElectionNode {
    const id: nat
    const peers: seq<nat>
    const stopCh: StopChannel
    var currentTerm: int
    var votedFor: int
    var role: Model.Role
    var voteCount: int
    var leaderID: int

    ghost function View(): Model.ElectionState
      reads this
    {
      Model.ElectionState(id, peers, currentTerm, votedFor, role, voteCount, leaderID)
    }

    constructor (id: nat, peers: seq<nat>)
      ensures View() == Model.NewElection(id, peers)
      ensures fresh(stopCh) && !stopCh.closed
    {
      this.id, this.peers := id, peers;
      currentTerm, votedFor, role, voteCount, leaderID := 0, -1, Model.Follower, 0, -1;
      stopCh := new StopChannel();
    }

    method Stop()
      modifies stopCh
      ensures stopCh.closed
    {
      if !stopCh.closed {
        stopCh.Close();
      }
    }

    method CheckElectionTimeout(timedOut: bool) returns (effect: Model.Effect)
      modifies this
      ensures Model.Turn(View(), effect) == Model.Tick(old(View()), timedOut)
    {
      if role == Model.Leader {
        effect := SendHeartbeat();
      } else if timedOut {
        effect := StartElection();
      } else {
        effect := Model.Silent;
      }
    }

    method StartElection() returns (effect: Model.Effect)
      modifies this
      ensures Model.Turn(View(), effect) == Model.StartElection(old(View()))
      ensures currentTerm == old(currentTerm) + 1 && votedFor == id && role == Model.Candidate
    {
      currentTerm := currentTerm + 1;
      role := Model.Candidate;
      votedFor := id;
      voteCount := 1;
      effect := Model.AskVotes(VoteRequest(currentTerm, id));
    }

    method SendHeartbeat() returns (effect: Model.Effect)
      ensures effect == Model.SendBeat(Heartbeat(currentTerm, id))
    {
      effect := Model.SendBeat(Heartbeat(currentTerm, id));
    }

    method HandleVoteRequest(req: VoteRequest) returns (effect: Model.Effect)
      modifies this
      ensures Model.Turn(View(), effect) == Model.HandleVoteRequest(old(View()), req)
      // within a term, a vote once cast is never cast for anyone else
      ensures currentTerm == old(currentTerm) && old(votedFor) != -1 ==> votedFor == old(votedFor)
    {
      if req.term > currentTerm {
        currentTerm := req.term;
        role := Model.Follower;
        votedFor := -1;
        leaderID := -1;
      }
      var granted := false;
      if req.term >= currentTerm && (votedFor == -1 || votedFor == req.candidateID) {
        granted := true;
        votedFor := req.candidateID;
      }
      effect := Model.ReplyVote(req.candidateID, VoteResponse(currentTerm, granted, id));
    }

    method HandleVoteResponse(resp: VoteResponse) returns (effect: Model.Effect)
      modifies this
      ensures Model.Turn(View(), effect) == Model.HandleVoteResponse(old(View()), resp)
    {
      effect := Model.Silent;
      if role != Model.Candidate {
        return;
      }
      if resp.term > currentTerm {
        currentTerm := resp.term;
        role := Model.Follower;
        votedFor := -1;
        voteCount := 0;
        return;
      }
      if resp.term != currentTerm {
        return;
      }
      if resp.voteGranted {
        voteCount := voteCount + 1;
        if voteCount >= Majority(|peers| + 1) {
          effect := BecomeLeader();
        }
      }
    }

    method BecomeLeader() returns (effect: Model.Effect)
      modifies this`role, this`leaderID
      ensures role == Model.Leader && leaderID == id && effect == Model.BecameLeader(currentTerm)
    {
      role := Model.Leader;
      leaderID := id;
      effect := Model.BecameLeader(currentTerm);
    }

    method HandleHeartbeat(hb: Heartbeat) returns (effect: Model.Effect)
      modifies this
      ensures Model.Turn(View(), effect) == Model.HandleHeartbeat(old(View()), hb)
    {
      effect := Model.Silent;
      if hb.term < currentTerm {
        return;
      }
      if hb.term > currentTerm {
        currentTerm := hb.term;
        votedFor := -1;
      }
      var wasFollowerOfSameLeader := role == Model.Follower && leaderID == hb.leaderID;
      role := Model.Follower;
      leaderID := hb.leaderID;
      voteCount := 0;
      if !wasFollowerOfSameLeader {
        effect := Model.BecameFollower(hb.leaderID, hb.term);
      }
    }
  }
}
