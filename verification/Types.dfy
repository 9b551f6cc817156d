/** The values that travel between coordinators: log entries, the messages of
    the two Raft modules, and the replicated routing table. */
module Types {

  datatype Option<+T> = None | Some(value: T)

  /** Only the two named change types have an effect on the routing table. */
  datatype ChangeType = AddServer | AddRoom | OtherChange(name: string)

  datatype LogEntry = LogEntry(term: int, index: int, change: ChangeType, key: string, value: string)

  datatype AppendRequest = AppendRequest(
    term: int, leaderID: nat, prevLogIndex: int, prevLogTerm: int,
    entries: seq<LogEntry>, leaderCommit: int)

  datatype AppendResponse = AppendResponse(term: int, success: bool, followerID: nat, matchIndex: int)

  datatype VoteRequest = VoteRequest(term: int, candidateID: nat)

  datatype VoteResponse = VoteResponse(term: int, voteGranted: bool, voterID: nat)

  datatype Heartbeat = Heartbeat(term: int, leaderID: nat)

  datatype RoutingEntry = RoutingEntry(roomName: string, serverAddr: string)

  datatype RoutingTable = RoutingTable(servers: map<string, string>, rooms: map<string, RoutingEntry>)

  /** The channel that a module's Stop closes. */
  class StopChannel {
    var closed: bool

    constructor ()
      ensures !closed
    {
      closed := false;
    }

    /** Closing a closed channel fails. */
    method Close()
      requires !closed
      modifies this
      ensures closed
    {
      closed := true;
    }
  }

  const EMPTY_TABLE := RoutingTable(map[], map[])
}
