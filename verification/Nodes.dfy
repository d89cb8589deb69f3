/** A node's state and its handlers as functions.  Each handler runs under the node's mutex, so it is
    one atomic step.  Class RaftNode has the same handlers as the methods of an object; the cluster
    properties are proved about these functions. */
module Nodes {
  import opened Wrappers
  import opened Messages
  import opened Durable
  import opened Logs
  import opened Machine
  import opened CommitRule

  datatype Role = Leader | Follower | Candidate

  /** The fields of raft_node.hpp, with the durable store and the key-value store they own.
      `peers` is peer_count(), which includes the node itself; members are 0, ..., peers - 1. */
  datatype Node = Node(
    id: nat, peers: nat,
    role: Role, votes: nat, votedFor: Option<nat>, leaderId: Option<nat>, term: nat,
    log: seq<LogEntry>, commit: nat, applied: nat,
    nextIndex: map<nat, nat>, matchIndex: MatchMap,
    disk: Disk, st: Store, tasks: seq<ApplyTask>)

  /** RaftNode::create over whatever survived: fails when the log or the state cannot be read back. */
  ghost function Started(id: nat, peers: nat, d: Disk, st: Store): Node
    requires Opens(d)
  {
    Node(id, peers, Follower, 0, PersistedVote(d), None, PersistedTerm(d), Recovered(d).value, 0, 0,
         map[], map[], Opened(d), st, [])
  }

  // ---- Roles ----------------------------------------------------------------------------------

  function Campaigning(n: Node): Node {
    n.(votes := 1, votedFor := Some(n.id), role := Candidate, term := n.term + 1)
  }

  /** Adopt a higher term as a follower.  One handler persists the term it had before. */
  function StepDown(n: Node, term: nat, persisted: nat): Node {
    n.(votes := 0, votedFor := None, term := term, role := Follower, disk := PutState(n.disk, persisted, None))
  }

  function Elected(n: Node): Node {
    n.(votes := 0, votedFor := None, role := Leader,
       nextIndex := map m | m in n.nextIndex :: |n.log| + 1,
       disk := PutState(n.disk, n.term, None))
  }

  function VoteRequestOf(n: Node): VoteRequest {
    VoteRequest(n.term, n.id, |n.log|, LastTerm(n.log))
  }

  /** The request that both the heartbeat and a client write start from. */
  function AppendRequestOf(n: Node): AppendRequest {
    AppendRequest(n.term, n.id, PrevIndex(n.log), PrevTerm(n.log), [], n.commit)
  }

  function AppendReply(n: Node, success: bool, conflict: nat): AppendResponse {
    AppendResponse(n.id, n.term, success, |n.log|, conflict)
  }

  // ---- Votes ----------------------------------------------------------------------------------

  /** The vote test compares log lengths, and last terms only between logs of equal length. */
  predicate UpToDate(n: Node, q: VoteRequest) {
    q.lastLogIndex > |n.log| || (q.lastLogIndex == |n.log| && q.lastLogTerm == LastTerm(n.log))
  }

  function OnVoteRequest(n: Node, q: VoteRequest): (Node, VoteResponse) {
    if q.term < n.term then (n, VoteResponse(n.id, n.term, false))
    else
      var m := if q.term > n.term then StepDown(n, q.term, q.term) else n;
      var canVote := m.votedFor.None? || m.votedFor.value == q.candidateId;
      (m, VoteResponse(m.id, m.term, canVote && UpToDate(m, q)))
  }

  function OnVoteResponse(n: Node, r: VoteResponse): Node {
    if r.term < n.term then n
    else if r.term > n.term then StepDown(n, r.term, n.term)
    else if n.role == Leader || !r.granted then n
    else
      var m := n.(votes := n.votes + 1);
      if m.votes > m.peers / 2 && m.role == Candidate then Elected(m) else m
  }

  // ---- Log replication: the follower ------------------------------------------------------------

  /** Apply what is committed.  On `Overrun` the program reads past its vector, which no model can
      predict; the store is left alone here, and `AppliedWithinLog` shows when it cannot happen. */
  function ApplyCommitted(n: Node): Node {
    match EntriesView(n.log, n.applied + 1, n.commit)
    case OutOfRange => n
    case Span(es) => n.(st := Fold(n.st, es), applied := n.commit)
    case Overrun => n.(applied := n.commit)
  }

  function RaiseCommit(n: Node, leaderCommit: nat): Node {
    n.(commit := Min(|n.log|, leaderCommit))
  }

  /** The request's entries reach the log's append. */
  predicate Accepts(n: Node, q: AppendRequest) {
    q.entries != [] && q.term >= n.term && q.prevIndex <= |n.log|
  }

  function OnHeartbeat(a: Node, q: AppendRequest): (Node, AppendResponse) {
    var b := ApplyCommitted(if q.leaderCommit > a.commit then RaiseCommit(a, q.leaderCommit) else a);
    (b, AppendReply(b, true, 1))
  }

  /** `writeOk` is the status of the store's batch write. */
  function OnEntries(a: Node, q: AppendRequest, writeOk: bool): (Node, AppendResponse)
    requires q.entries != []
  {
    if q.prevIndex > |a.log| then (a, AppendReply(a, false, |a.log| + 1))
    else if !writeOk then
      var b := if TermAt(a.log, q.prevIndex) != q.prevTerm then a.(log := Truncated(a.log, q.prevIndex)) else a;
      (b, AppendReply(b, false, |b.log| + 1))
    else
      var b := a.(log := Spliced(a.log, q.prevIndex, q.prevTerm, q.entries), disk := PutBatch(a.disk, q.entries));
      var c := if q.leaderCommit > b.commit then ApplyCommitted(RaiseCommit(b, q.leaderCommit)) else b;
      (c, AppendReply(c, true, 1))
  }

  /** The node once a request has passed the term test. */
  function Admitted(n: Node, q: AppendRequest): Node {
    (if q.term > n.term then StepDown(n, q.term, q.term) else n).(leaderId := Some(q.leaderId))
  }

  function OnAppendRequest(n: Node, q: AppendRequest, writeOk: bool): (Node, AppendResponse) {
    if q.term < n.term then (n, AppendReply(n, false, |n.log| + 1))
    else
      var a := Admitted(n, q);
      if q.entries == [] then OnHeartbeat(a, q) else OnEntries(a, q, writeOk)
  }

  // ---- Log replication: the leader ---------------------------------------------------------------

  datatype KvOutcome =
    | Redirect(leader: Option<nat>)
    | AppendFailed
    | Deferred(request: AppendRequest)

  /** Put, get and delete requests: log the command, queue it, and defer the reply. */
  function OnKvRequest(n: Node, c: Command, session: nat, requestId: nat, writeOk: bool): (Node, KvOutcome) {
    if n.role != Leader then
      (n, Redirect(if n.leaderId.Some? && n.leaderId.value < n.peers then n.leaderId else None))
    else if !writeOk then (n, AppendFailed)
    else
      var e := LogEntry(n.term, |n.log| + 1, c);
      var m := n.(log := n.log + [e], disk := PutEntry(n.disk, e), matchIndex := n.matchIndex[n.id := e.index]);
      (m.(nextIndex := m.nextIndex[n.id := e.index + 1],
          tasks := m.tasks + [ApplyTask(e.index, session, requestId, c)]),
       Deferred(AppendRequestOf(m).(entries := [e])))
  }

  function OnHeartbeatResponse(n: Node, r: AppendResponse): Node {
    if r.term < n.term || n.role != Leader then n
    else if r.term > n.term then StepDown(n, r.term, r.term)
    else n
  }

  /** `match_index_[member]` creates the key at 0 when it is missing. */
  function Tracked(m: MatchMap, member: nat): MatchMap {
    if member in m then m else m[member := 0]
  }

  /** Commit what the tracked members have reached, and drain the queue. */
  ghost function CommitTracked(n: Node): Node
    requires n.matchIndex.Keys != {}
  {
    var c := CommitPoint(n.matchIndex);
    var d := Ready(n.tasks, c);
    n.(commit := c, applied := c, tasks := n.tasks[d..], st := RunTasks(n.st, n.tasks[..d]))
  }

  ghost function OnAppendResponse(n: Node, r: AppendResponse): Node {
    if r.term < n.term || n.role != Leader then n
    else if r.term > n.term then StepDown(n, r.term, r.term)
    else if !r.success then n.(nextIndex := n.nextIndex[r.memberId := r.conflictIndex])
    else
      var m := n.(matchIndex := Tracked(n.matchIndex, r.memberId));
      if m.matchIndex[r.memberId] < r.lastLogIndex then
        var u := m.(matchIndex := m.matchIndex[r.memberId := r.lastLogIndex]);
        assert r.memberId in u.matchIndex;
        CommitTracked(u)
      else m
  }

  predicate Lags(n: Node, member: nat) {
    member in n.nextIndex && n.nextIndex[member] <= |n.log| && n.nextIndex[member] != 0
  }

  function ResendRequest(n: Node, member: nat): AppendRequest
    requires Lags(n, member)
  {
    var next := n.nextIndex[member];
    AppendRequest(n.term, n.id, next - 1, TermAt(n.log, next - 1), n.log[next - 1..], n.commit)
  }

  /** The heartbeat's resend loop: a request for every member that lags. */
  function Resends(n: Node): map<nat, AppendRequest> {
    map m | m in n.nextIndex && Lags(n, m) :: ResendRequest(n, m)
  }

  function AfterResends(n: Node): Node {
    n.(nextIndex := map m | m in n.nextIndex :: if Lags(n, m) then |n.log| + 1 else n.nextIndex[m])
  }
}
