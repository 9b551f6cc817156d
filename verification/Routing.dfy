/** What the replicated routing table holds, as a function of the applied entries. */
module Routing {
  import opened Types
  import opened LogModel

  /** Index of the last entry of this kind for this key, or -1. */
  function LastWrite(entries: seq<LogEntry>, change: ChangeType, key: string): (k: int)
    ensures -1 <= k < |entries|
    ensures k >= 0 ==> entries[k].change == change && entries[k].key == key
    ensures forall j :: k < j < |entries| ==> !(entries[j].change == change && entries[j].key == key)
  {
    if entries == [] then -1
    else
      var last := |entries| - 1;
      if entries[last].change == change && entries[last].key == key then last
      else LastWrite(entries[..last], change, key)
  }

  /** The last write wins: a room or a server is in the table exactly when some entry added it, with the
      value of the last entry that did, and no other entry has any effect. */
  lemma {:induction false} LastWriteWins(entries: seq<LogEntry>, key: string)
    ensures var room, server, t := LastWrite(entries, AddRoom, key), LastWrite(entries, AddServer, key), Fold(entries);
            && (key in t.rooms <==> room >= 0) && (key in t.servers <==> server >= 0)
            && (room >= 0 ==> t.rooms[key] == RoutingEntry(key, entries[room].value))
            && (server >= 0 ==> t.servers[key] == entries[server].value)
  {
    if entries != [] {
      LastWriteWins(entries[..|entries| - 1], key);
    }
  }
}
