/** The node as an object whose handlers update its fields (raft_node.hpp, raft_node.cpp).  Every
    handler is proved to take the state to what the corresponding function of module Nodes gives. */
module Handlers {
  import opened Wrappers
  import opened Messages
  import opened Durable
  import opened Logs
  import opened Machine
  import opened CommitRule
  import opened Nodes

  class RaftNode {
    const id: nat
    const peers: nat
    const logs: RaftLog
    const machine: StateMachine
    var role: Role
    var votes: nat
    var votedFor: Option<nat>
    var leaderId: Option<nat>
    var currentTerm: nat
    var commitIndex: nat
    var lastApplied: nat
    var nextIndex: map<nat, nat>
    var matchIndex: MatchMap

    ghost predicate Valid()
      reads this, logs
    {
      logs.Valid()
    }

    ghost function State(): Node
      reads this, logs, logs.persister, machine
    {
      Node(id, peers, role, votes, votedFor, leaderId, currentTerm, logs.entries, commitIndex, lastApplied,
           nextIndex, matchIndex, logs.persister.st, machine.st, machine.tasks)
    }

    constructor (id: nat, peers: nat, term: nat, vote: Option<nat>, logs: RaftLog, machine: StateMachine)
      ensures this.logs == logs && this.machine == machine
      ensures State() == Node(id, peers, Follower, 0, vote, None, term, logs.entries, 0, 0, map[], map[],
                              logs.persister.st, machine.st, machine.tasks)
    {
      this.id, this.peers, this.logs, this.machine := id, peers, logs, machine;
      role, votes, votedFor, leaderId := Follower, 0, vote, None;
      currentTerm, commitIndex, lastApplied := term, 0, 0;
      nextIndex, matchIndex := map[], map[];
    }

    /** Start over whatever survived: the raft store `disk`, which answers as `h` says, and the user data. */
    static method Create(id: nat, peers: nat, disk: Disk, st: Store, h: Health) returns (r: Result<RaftNode>)
      ensures r.Ok? <==> RecoveredUnder(disk, h).Ok? && h.stateRead && Opens(disk)
      ensures r.Ok? ==>
        fresh(r.value) && r.value.State() == Started(id, peers, disk, st).(disk := OpenedUnder(disk, h))
      ensures r.Ok? && (disk == map[] || DiskOk(disk)) ==> r.value.Valid()
    {
      if RecoveredUnder(disk, h).Ok? { RecoveredIsWhole(disk, h); }
      var machine := new StateMachine(st);
      var persister := new Persister(disk);
      var logs := RaftLog.Create(persister, h);
      if logs.Err? { return Err(logs.error); }
      var state := logs.value.persister.RecoverState(h.stateRead);
      if state.Err? { return Err(state.error); }
      var node := new RaftNode(id, peers, state.value.0, state.value.1, logs.value, machine);
      r := Ok(node);
    }

    // ---- Timeouts ---------------------------------------------------------------------------

    method StartElection()
      requires Valid()
      modifies this
      ensures Valid() && State() == Campaigning(old(State()))
    {
      votes := 1;
      votedFor := Some(id);
      role := Candidate;
      currentTerm := currentTerm + 1;
    }

    /** The body of the election timer once the timeout has elapsed. */
    method ElectionTimeout() returns (request: Option<VoteRequest>)
      requires Valid()
      modifies this
      ensures Valid()
      ensures old(role) == Leader ==> request.None? && State() == old(State())
      ensures old(role) != Leader ==> State() == Campaigning(old(State())) && request == Some(VoteRequestOf(State()))
    {
      if role == Leader { return None; }
      StartElection();
      request := Some(VoteRequest(currentTerm, id, logs.LastLogIndex(), logs.LastLogTerm()));
    }

    /** The body of the heartbeat timer: resend what lags, then a heartbeat to everybody. */
    method HeartbeatTimeout() returns (resends: map<nat, AppendRequest>, heartbeat: Option<AppendRequest>)
      requires Valid()
      modifies this
      ensures Valid()
      ensures old(role) != Leader ==> resends == map[] && heartbeat.None? && State() == old(State())
      ensures old(role) == Leader ==>
        && State() == AfterResends(old(State()))
        && resends == Resends(old(State())) && heartbeat == Some(AppendRequestOf(old(State())))
    {
      resends := map[];
      if role != Leader { return resends, None; }
      resends := ResendAll();
      heartbeat := Some(ProduceAppendEntriesRequest());
    }

    method ResendAll() returns (resends: map<nat, AppendRequest>)
      requires Valid()
      modifies this`nextIndex
      ensures nextIndex == AfterResends(old(State())).nextIndex && resends == Resends(old(State()))
    {
      resends := map[];
      ghost var n := State();
      var todo := nextIndex.Keys;
      while todo != {}
        invariant Valid() && todo <= nextIndex.Keys == n.nextIndex.Keys
        invariant forall m :: m in nextIndex ==>
          nextIndex[m] == if m !in todo && Lags(n, m) then |n.log| + 1 else n.nextIndex[m]
        invariant forall m :: m in resends <==> m in n.nextIndex && m !in todo && Lags(n, m)
        invariant forall m :: m in resends ==> resends[m] == ResendRequest(n, m)
      {
        var member :| member in todo;
        todo := todo - {member};
        if nextIndex[member] <= logs.LastLogIndex() && nextIndex[member] != 0 {
          var request := Resend(member);
          assert request == ResendRequest(n, member);
          resends := resends[member := request];
        }
      }
    }

    /** One member's resend: the loop leaves its next index just past the log. */
    method Resend(member: nat) returns (request: AppendRequest)
      requires Valid() && Lags(State(), member)
      modifies this`nextIndex
      ensures Valid() && nextIndex == old(nextIndex)[member := |logs.entries| + 1]
      ensures request == ResendRequest(old(State()), member)
    {
      ghost var n := State();
      request := AppendRequest(currentTerm, id, nextIndex[member] - 1,
                               logs.TermOf(nextIndex[member] - 1), [], commitIndex);
      while nextIndex[member] <= logs.LastLogIndex()
        invariant member in nextIndex && nextIndex == n.nextIndex[member := nextIndex[member]]
        invariant n.nextIndex[member] <= nextIndex[member] <= |n.log| + 1
        invariant request == ResendRequest(n, member).(entries := n.log[n.nextIndex[member] - 1..nextIndex[member] - 1])
        decreases |n.log| + 1 - nextIndex[member]
      {
        var entry := logs.EntryAt(nextIndex[member]);
        if entry.Ok? { request := request.(entries := request.entries + [entry.value]); }
        nextIndex := nextIndex[member := nextIndex[member] + 1];
      }
    }

    // ---- Terms and roles ----------------------------------------------------------------------

    method IncreaseTermTo(term: nat)
      modifies this`votes, this`votedFor, this`currentTerm
      ensures votes == 0 && votedFor == None && currentTerm == term
    {
      votes := 0;
      votedFor := None;
      currentTerm := term;
    }

    method BecomeLeader()
      requires Valid()
      modifies this, logs.persister
      ensures Valid() && State() == Elected(old(State()))
    {
      votes := 0;
      votedFor := None;
      role := Leader;
      var todo := nextIndex.Keys;
      ghost var before := nextIndex;
      while todo != {}
        invariant todo <= nextIndex.Keys == before.Keys
        invariant forall m :: m in nextIndex ==> nextIndex[m] == if m in todo then before[m] else |logs.entries| + 1
        invariant State() == old(State()).(votes := 0, votedFor := None, role := Leader, nextIndex := nextIndex)
      {
        var m :| m in todo;
        nextIndex := nextIndex[m := logs.LastLogIndex() + 1];
        todo := todo - {m};
      }
      var persisted := logs.persister.PersistState(currentTerm, votedFor, true);
    }

    // ---- Votes --------------------------------------------------------------------------------

    method HandleRequestVoteRequest(q: VoteRequest) returns (r: VoteResponse)
      requires Valid()
      modifies this, logs.persister
      ensures Valid() && (State(), r) == OnVoteRequest(old(State()), q)
    {
      if q.term < currentTerm { return VoteResponse(id, currentTerm, false); }
      if q.term > currentTerm {
        IncreaseTermTo(q.term);
        role := Follower;
        var persisted := logs.persister.PersistState(q.term, votedFor, true);
      }
      var canVote := votedFor.None? || votedFor.value == q.candidateId;
      var upToDate := false;
      if q.lastLogIndex > logs.LastLogIndex() ||
         (q.lastLogIndex == logs.LastLogIndex() && q.lastLogTerm == logs.LastLogTerm()) {
        upToDate := true;
      }
      r := VoteResponse(id, currentTerm, canVote && upToDate);
    }

    method HandleRequestVoteResponse(r: VoteResponse)
      requires Valid()
      modifies this, logs.persister
      ensures Valid() && State() == OnVoteResponse(old(State()), r)
    {
      var term := currentTerm;
      if r.term < term { return; }
      if r.term > term {
        IncreaseTermTo(r.term);
        role := Follower;
        var persisted := logs.persister.PersistState(term, votedFor, true);
        return;
      }
      if role == Leader { return; }
      if r.granted {
        votes := votes + 1;
        if votes > peers / 2 && role == Candidate { BecomeLeader(); }
      }
    }

    // ---- Append entries -----------------------------------------------------------------------

    method ApplyView()
      requires Valid()
      modifies this`lastApplied, machine
      ensures Valid() && State() == ApplyCommitted(old(State()))
    {
      var view := logs.ViewOf(lastApplied + 1, commitIndex);
      if view.Span? {
        NoEntryFailed(machine.st, view.entries);
        machine.ApplyEntries(view.entries, {});
      }
      if !view.OutOfRange? { lastApplied := commitIndex; }
    }

    method HandleAppendEntriesRequest(q: AppendRequest, writeOk: bool) returns (r: AppendResponse)
      requires Valid()
      modifies this, logs, logs.persister, machine
      ensures Valid() && (State(), r) == OnAppendRequest(old(State()), q, writeOk)
    {
      if q.term < currentTerm { return ProduceAppendEntriesResponse(false, logs.LastLogIndex() + 1); }
      if q.term > currentTerm {
        IncreaseTermTo(q.term);
        role := Follower;
        var persisted := logs.persister.PersistState(q.term, votedFor, true);
      }
      leaderId := Some(q.leaderId);
      if q.entries == [] { r := Heartbeat(q); } else { r := AppendAfter(q, writeOk); }
    }

    method Heartbeat(q: AppendRequest) returns (r: AppendResponse)
      requires Valid()
      modifies this`commitIndex, this`lastApplied, machine
      ensures Valid() && (State(), r) == OnHeartbeat(old(State()), q)
    {
      if q.leaderCommit > commitIndex { commitIndex := Min(logs.LastLogIndex(), q.leaderCommit); }
      ApplyView();
      r := ProduceAppendEntriesResponse(true, 1);
    }

    method AppendAfter(q: AppendRequest, writeOk: bool) returns (r: AppendResponse)
      requires Valid() && q.entries != []
      modifies this`commitIndex, this`lastApplied, logs, logs.persister, machine
      ensures Valid() && (State(), r) == OnEntries(old(State()), q, writeOk)
    {
      if q.prevIndex > logs.LastLogIndex() {
        return ProduceAppendEntriesResponse(false, logs.LastLogIndex() + 1);
      }
      if logs.TermOf(q.prevIndex) != q.prevTerm { logs.TruncateEntries(q.prevIndex); }
      var appended := logs.AppendEntries(q.entries, writeOk);
      if appended.Err? { return ProduceAppendEntriesResponse(false, logs.LastLogIndex() + 1); }
      if q.leaderCommit > commitIndex {
        commitIndex := Min(logs.LastLogIndex(), q.leaderCommit);
        ApplyView();
      }
      r := ProduceAppendEntriesResponse(true, 1);
    }

    method HandleHeartbeatResponse(r: AppendResponse)
      requires Valid()
      modifies this, logs.persister
      ensures Valid() && State() == OnHeartbeatResponse(old(State()), r)
    {
      if r.term < currentTerm || role != Leader { return; }
      if r.term > currentTerm {
        IncreaseTermTo(r.term);
        role := Follower;
        var persisted := logs.persister.PersistState(currentTerm, votedFor, true);
      }
    }

    /** The sessions in `live` are connected and are sent the answers. */
    method HandleAppendEntriesResponse(r: AppendResponse, live: set<nat>) returns (out: seq<Delivery>)
      requires Valid()
      modifies this, logs.persister, machine
      ensures Valid() && State() == OnAppendResponse(old(State()), r)
      ensures
        var released := |old(machine.tasks)| - |machine.tasks|;
        released >= 0 && out == Deliveries(old(machine.st), old(machine.tasks)[..released], live)
    {
      out := [];
      if r.term < currentTerm || role != Leader { return; }
      if r.term > currentTerm {
        IncreaseTermTo(r.term);
        role := Follower;
        var persisted := logs.persister.PersistState(currentTerm, votedFor, true);
        return;
      }
      if !r.success {
        nextIndex := nextIndex[r.memberId := r.conflictIndex];
        return;
      }
      if r.memberId !in matchIndex { matchIndex := matchIndex[r.memberId := 0]; }
      if matchIndex[r.memberId] < r.lastLogIndex {
        matchIndex := matchIndex[r.memberId := r.lastLogIndex];
        assert r.memberId in matchIndex;
        out := CommitAndApply(live);
      }
    }

    method CommitAndApply(live: set<nat>) returns (out: seq<Delivery>)
      requires Valid() && matchIndex.Keys != {}
      modifies this`commitIndex, this`lastApplied, machine
      ensures Valid() && State() == CommitTracked(old(State()))
      ensures
        var released := |old(machine.tasks)| - |machine.tasks|;
        released >= 0 && out == Deliveries(old(machine.st), old(machine.tasks)[..released], live)
    {
      commitIndex := PickCommit(matchIndex);
      NoTaskFailed(machine.st, machine.tasks[..Ready(machine.tasks, commitIndex)], live);
      out := machine.ApplyQueue(commitIndex, live, {});
      lastApplied := commitIndex;
    }

    // ---- Client requests ----------------------------------------------------------------------

    /** handle_kv_put_request, handle_kv_get_request and handle_kv_delete_request differ only in the
        command they log. */
    method HandleKvRequest(c: Command, session: nat, requestId: nat, writeOk: bool) returns (outcome: KvOutcome)
      requires Valid()
      modifies this, logs, logs.persister, machine
      ensures Valid() && (State(), outcome) == OnKvRequest(old(State()), c, session, requestId, writeOk)
    {
      if role != Leader {
        var redirect := None;
        if leaderId.Some? && leaderId.value < peers { redirect := leaderId; }
        return Redirect(redirect);
      }
      var last := logs.LastLogIndex();
      var appended := logs.AppendEntry(LogEntry(currentTerm, last + 1, c), writeOk);
      if appended.Err? { return AppendFailed; }
      matchIndex := matchIndex[id := last + 1];
      var request := ProduceAppendEntriesRequest();
      var entry := LogEntry(currentTerm, last + 1, c);
      request := request.(entries := request.entries + [entry]);
      assert [] + [entry] == [entry];
      nextIndex := nextIndex[id := entry.index + 1];
      machine.ProduceApplyTask(ApplyTask(entry.index, session, requestId, c));
      outcome := Deferred(request);
    }

    // ---- Messages -----------------------------------------------------------------------------

    function ProduceAppendEntriesRequest(): AppendRequest
      requires Valid()
      reads this, logs
    {
      AppendRequest(currentTerm, id, logs.PrevLogIndex(), logs.PrevLogTerm(), [], commitIndex)
    }

    function ProduceAppendEntriesResponse(success: bool, conflict: nat): AppendResponse
      requires Valid()
      reads this, logs
    {
      AppendResponse(id, currentTerm, success, logs.LastLogIndex(), conflict)
    }
  }
}
