/** The values that travel between nodes and that a node stores in its log. */
module Messages {

  /** An InternalRaftRequest.  `Unset` parses but selects no command; `Garbled` does not parse. */
  datatype Command =
    | Put(key: string, value: string)
    | Get(key: string)
    | Delete(key: string)
    | Unset
    | Garbled

  datatype LogEntry = LogEntry(term: nat, index: nat, command: Command)

  datatype VoteRequest = VoteRequest(term: nat, candidateId: nat, lastLogIndex: nat, lastLogTerm: nat)

  datatype VoteResponse = VoteResponse(memberId: nat, term: nat, granted: bool)

  datatype AppendRequest = AppendRequest(
    term: nat, leaderId: nat, prevIndex: nat, prevTerm: nat, entries: seq<LogEntry>, leaderCommit: nat)

  datatype AppendResponse = AppendResponse(
    memberId: nat, term: nat, success: bool, lastLogIndex: nat, conflictIndex: nat)

  /** Consecutive entries that carry the indices `first`, `first + 1`, ... */
  ghost predicate Contiguous(entries: seq<LogEntry>, first: nat) {
    forall j :: 0 <= j < |entries| ==> entries[j].index == first + j
  }

  function Min(a: int, b: int): int { if a < b then a else b }

  function Max(a: int, b: int): int { if a < b then b else a }
}
