/** One election node as a value, and each of its handlers as a function on that value. */
module ElectionModel {
  import opened Types
  import opened Quorum

  datatype Role = Follower | Candidate | Leader

  /** `votedFor` and `leaderID` are -1 when there is nobody. */
  datatype ElectionState = ElectionState(
    id: nat,
    peers: seq<nat>,
    currentTerm: int,
    votedFor: int,
    role: Role,
    voteCount: int,
    leaderID: int)

  /** What a handler hands to a callback: at most one message, or one notice for the log module. */
  datatype Effect =
    | Silent
    | AskVotes(request: VoteRequest)
    | ReplyVote(target: nat, response: VoteResponse)
    | SendBeat(beat: Heartbeat)
    | BecameLeader(term: int)
    | BecameFollower(leader: nat, followTerm: int)

  datatype Turn = Turn(state: ElectionState, effect: Effect)

  function NewElection(id: nat, peers: seq<nat>): ElectionState {
    ElectionState(id, peers, 0, -1, Follower, 0, -1)
  }

  /** The timeout itself is left to chance; this is what happens when it fires. */
  function StartElection(s: ElectionState): Turn {
    var s' := s.(currentTerm := s.currentTerm + 1, role := Candidate, votedFor := s.id, voteCount := 1);
    Turn(s', AskVotes(VoteRequest(s'.currentTerm, s.id)))
  }

  /** A tick: leaders send a heartbeat, the others start an election if their timeout has passed. */
  function Tick(s: ElectionState, timedOut: bool): Turn {
    if s.role == Leader then Turn(s, SendBeat(Heartbeat(s.currentTerm, s.id)))
    else if timedOut then StartElection(s)
    else Turn(s, Silent)
  }

  function HandleVoteRequest(s: ElectionState, req: VoteRequest): Turn {
    var s1 := if req.term > s.currentTerm
              then s.(currentTerm := req.term, role := Follower, votedFor := -1, leaderID := -1)
              else s;
    var granted := req.term >= s1.currentTerm && (s1.votedFor == -1 || s1.votedFor == req.candidateID);
    var s2 := if granted then s1.(votedFor := req.candidateID) else s1;
    Turn(s2, ReplyVote(req.candidateID, VoteResponse(s2.currentTerm, granted, s.id)))
  }

  function HandleVoteResponse(s: ElectionState, resp: VoteResponse): Turn {
    if s.role != Candidate then Turn(s, Silent)
    else if resp.term > s.currentTerm then
      Turn(s.(currentTerm := resp.term, role := Follower, votedFor := -1, voteCount := 0), Silent)
    else if resp.term != s.currentTerm || !resp.voteGranted then Turn(s, Silent)
    else
      var s1 := s.(voteCount := s.voteCount + 1);
      if s1.voteCount >= Majority(|s.peers| + 1) then
        Turn(s1.(role := Leader, leaderID := s.id), BecameLeader(s.currentTerm))
      else Turn(s1, Silent)
  }

  function HandleHeartbeat(s: ElectionState, hb: Heartbeat): Turn {
    if hb.term < s.currentTerm then Turn(s, Silent)
    else
      var s1 := if hb.term > s.currentTerm then s.(currentTerm := hb.term, votedFor := -1) else s;
      var sameLeader := s.role == Follower && s.leaderID == hb.leaderID;
      Turn(s1.(role := Follower, leaderID := hb.leaderID, voteCount := 0),
           if sameLeader then Silent else BecameFollower(hb.leaderID, hb.term))
  }
}
