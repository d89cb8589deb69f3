/** Histories of one node, crashes and restarts included, under arbitrary incoming messages. */
module NodeRuns {
  import opened Wrappers
  import opened Messages
  import opened Durable
  import opened Logs
  import opened Machine
  import opened CommitRule
  import opened Nodes
  import ApplyPaths

  datatype Event =
    | Timeout
    | Tick
    | VoteAsked(voteRequest: VoteRequest)
    | VoteAnswered(voteResponse: VoteResponse)
    | AppendAsked(append: AppendRequest, writeOk: bool)
    | AppendAnswered(response: AppendResponse)
    | HeartbeatAnswered(response: AppendResponse)
    | KvAsked(command: Command, session: nat, requestId: nat, kvWriteOk: bool)
    | Restart

  /** A restart succeeds only if the log and the state can be read back. */
  predicate Can(n: Node, e: Event) {
    && (e.Timeout? ==> n.role != Leader)
    && (e.Restart? ==> Opens(n.disk))
  }

  ghost function After(n: Node, e: Event): Node
    requires Can(n, e)
  {
    match e
    case Timeout => Campaigning(n)
    case Tick => if n.role == Leader then AfterResends(n) else n
    case VoteAsked(q) => OnVoteRequest(n, q).0
    case VoteAnswered(r) => OnVoteResponse(n, r)
    case AppendAsked(q, ok) => OnAppendRequest(n, q, ok).0
    case AppendAnswered(r) => OnAppendResponse(n, r)
    case HeartbeatAnswered(r) => OnHeartbeatResponse(n, r)
    case KvAsked(c, s, r, ok) => OnKvRequest(n, c, s, r, ok).0
    case Restart => Started(n.id, n.peers, n.disk, n.st)
  }

  ghost predicate EventAt(run: seq<Node>, es: seq<Event>, i: nat)
    requires |run| == |es| + 1 && i < |es|
  {
    Can(run[i], es[i]) && run[i + 1] == After(run[i], es[i])
  }

  ghost predicate IsHistory(run: seq<Node>, es: seq<Event>) {
    |run| == |es| + 1 && forall i: nat :: i < |es| ==> EventAt(run, es, i)
  }

  // ---- The durable term ---------------------------------------------------------------------------

  /** Log writes leave the persisted term alone. */
  lemma WritesKeepTerm(d: Disk, es: seq<LogEntry>)
    requires es != []
    ensures PersistedTerm(PutBatch(d, es)) == PersistedTerm(d) && PersistedTerm(PutEntry(d, es[0])) == PersistedTerm(d)
    ensures PersistedTerm(Opened(d)) == PersistedTerm(d)
  {
    RecordsKeyed(es);
  }

  lemma WritesKeepVote(d: Disk, es: seq<LogEntry>)
    requires es != []
    ensures PersistedVote(PutBatch(d, es)) == PersistedVote(d) && PersistedVote(PutEntry(d, es[0])) == PersistedVote(d)
    ensures PersistedVote(Opened(d)) == PersistedVote(d)
  {
    RecordsKeyed(es);
  }

  lemma EntriesKeepTerm(a: Node, q: AppendRequest, writeOk: bool)
    requires q.entries != []
    ensures OnEntries(a, q, writeOk).0.term == a.term && OnEntries(a, q, writeOk).0.role == a.role
    ensures PersistedTerm(OnEntries(a, q, writeOk).0.disk) == PersistedTerm(a.disk)
  {
    WritesKeepTerm(a.disk, q.entries);
  }

  lemma AppendKeepsDurableTerm(n: Node, q: AppendRequest, writeOk: bool)
    requires PersistedTerm(n.disk) <= n.term
    ensures var m := OnAppendRequest(n, q, writeOk).0; PersistedTerm(n.disk) <= PersistedTerm(m.disk) <= m.term
  {
    if q.term >= n.term {
      var a := Admitted(n, q);
      if q.entries != [] { EntriesKeepTerm(a, q, writeOk); }
    }
  }

  /** Even the handler that persists the term it had before raising it. */
  lemma StepKeepsDurableTerm(n: Node, e: Event)
    requires PersistedTerm(n.disk) <= n.term && Can(n, e)
    ensures PersistedTerm(n.disk) <= PersistedTerm(After(n, e).disk) <= After(n, e).term
  {
    match e
    case AppendAsked(q, ok) => AppendKeepsDurableTerm(n, q, ok);
    case KvAsked(c, _, _, _) => WritesKeepTerm(n.disk, [LogEntry(n.term, |n.log| + 1, c)]);
    case Restart => WritesKeepTerm(n.disk, [LogEntry(0, 0, Unset)]);
    case _ =>
  }

  /** Durable term: in any history of a node from a start on any readable disk, crashes and restarts
      included, the persisted term never decreases and never exceeds the term in memory. */
  lemma {:induction false} DurableTerm(run: seq<Node>, es: seq<Event>,
                                       id: nat, peers: nat, d: Disk, st: Store, i: nat, j: nat)
    requires IsHistory(run, es) && Opens(d) && run[0] == Started(id, peers, d, st)
    requires i <= j < |run|
    ensures PersistedTerm(run[i].disk) <= PersistedTerm(run[j].disk) <= run[j].term
    decreases j, j - i
  {
    if j == 0 {
      WritesKeepTerm(d, [LogEntry(0, 0, Unset)]);
    } else {
      var k := if i < j then i else j - 1;
      DurableTerm(run, es, id, peers, d, st, k, j - 1);
      assert EventAt(run, es, j - 1);
      StepKeepsDurableTerm(run[j - 1], es[j - 1]);
    }
  }

  /** A leader's term is always on its disk. */
  ghost predicate LeaderDurable(n: Node) {
    n.role == Leader ==> PersistedTerm(n.disk) == n.term
  }

  lemma AppendKeepsLeaderDurable(n: Node, q: AppendRequest, writeOk: bool)
    requires LeaderDurable(n)
    ensures LeaderDurable(OnAppendRequest(n, q, writeOk).0)
  {
    if q.term >= n.term {
      var a := Admitted(n, q);
      if q.entries != [] { EntriesKeepTerm(a, q, writeOk); }
    }
  }

  lemma StepKeepsLeaderDurable(n: Node, e: Event)
    requires LeaderDurable(n) && Can(n, e)
    ensures LeaderDurable(After(n, e))
  {
    match e
    case AppendAsked(q, ok) => AppendKeepsLeaderDurable(n, q, ok);
    case KvAsked(c, _, _, _) => WritesKeepTerm(n.disk, [LogEntry(n.term, |n.log| + 1, c)]);
    case _ =>
  }

  lemma {:induction false} LeaderDurableHolds(run: seq<Node>, es: seq<Event>, j: nat)
    requires IsHistory(run, es) && LeaderDurable(run[0]) && j < |run|
    ensures LeaderDurable(run[j])
  {
    if j == 0 {
    } else {
      LeaderDurableHolds(run, es, j - 1);
      assert EventAt(run, es, j - 1);
      StepKeepsLeaderDurable(run[j - 1], es[j - 1]);
    }
  }

  /** Whenever a node leads, a crash at that moment would bring it back in the term it leads. */
  lemma LeaderTermDurable(run: seq<Node>, es: seq<Event>, j: nat)
    requires IsHistory(run, es) && LeaderDurable(run[0]) && j < |run|
    requires run[j].role == Leader && Can(run[j], Restart)
    ensures After(run[j], Restart).term == run[j].term
  {
    LeaderDurableHolds(run, es, j);
  }

  // ---- The durable vote ---------------------------------------------------------------------------

  lemma EntriesKeepVote(a: Node, q: AppendRequest, writeOk: bool)
    requires q.entries != []
    ensures PersistedVote(OnEntries(a, q, writeOk).0.disk) == PersistedVote(a.disk)
  {
    WritesKeepVote(a.disk, q.entries);
  }

  lemma AppendForgetsVote(n: Node, q: AppendRequest, writeOk: bool)
    requires PersistedVote(n.disk) == None
    ensures PersistedVote(OnAppendRequest(n, q, writeOk).0.disk) == None
  {
    if q.term >= n.term && q.entries != [] { EntriesKeepVote(Admitted(n, q), q, writeOk); }
  }

  lemma StepForgetsVote(n: Node, e: Event)
    requires PersistedVote(n.disk) == None && Can(n, e)
    ensures PersistedVote(After(n, e).disk) == None && (e.Restart? ==> After(n, e).votedFor == None)
  {
    match e
    case AppendAsked(q, ok) => AppendForgetsVote(n, q, ok);
    case KvAsked(c, _, _, _) => WritesKeepVote(n.disk, [LogEntry(n.term, |n.log| + 1, c)]);
    case Restart => WritesKeepVote(n.disk, [LogEntry(0, 0, Unset)]);
    case _ =>
  }

  /** Votes are not durable: every write of the state comes after the vote has been cleared, so in any
      history from a disk without a vote no vote ever reaches the disk, and every restart forgets the
      vote that the node had in memory. */
  lemma {:induction false} VoteNeverDurable(run: seq<Node>, es: seq<Event>, j: nat)
    requires IsHistory(run, es) && PersistedVote(run[0].disk) == None && j < |run|
    ensures PersistedVote(run[j].disk) == None
    ensures 0 < j && es[j - 1].Restart? ==> run[j].votedFor == None
  {
    if j == 0 {
    } else {
      VoteNeverDurable(run, es, j - 1);
      assert EventAt(run, es, j - 1);
      StepForgetsVote(run[j - 1], es[j - 1]);
    }
  }

  // ---- An election --------------------------------------------------------------------------------

  predicate Ahead(c: Node, v: Node) {
    |c.log| > |v.log| || (|c.log| == |v.log| && LastTerm(c.log) == LastTerm(v.log))
  }

  /** A member hears of a later term from a candidate: it grants its vote exactly to a log longer than
      its own, or as long with the same last term. */
  lemma FreshVoteIff(c: Node, v: Node)
    requires v.term <= c.term
    ensures
      var (m, r) := OnVoteRequest(v, VoteRequestOf(Campaigning(c)));
      && m.term == c.term + 1 && m.role == Follower && r.term == m.term && r.memberId == v.id
      && (r.granted <==> Ahead(c, v))
  {}

  /** Node c stands and hears from the given voters in turn. */
  function Polled(c: Node, voters: seq<Node>): Node {
    if voters == [] then Campaigning(c)
    else
      var v := voters[|voters| - 1];
      OnVoteResponse(Polled(c, voters[..|voters| - 1]), OnVoteRequest(v, VoteRequestOf(Campaigning(c))).1)
  }

  function Supporters(c: Node, voters: seq<Node>): nat {
    if voters == [] then 0
    else Supporters(c, voters[..|voters| - 1]) + if Ahead(c, voters[|voters| - 1]) then 1 else 0
  }

  /** A candidate whose term is new to all the voters it hears from becomes leader if and only if one of
      them votes for it, and the logs that its own is ahead of, with its own vote, make a strict majority;
      whatever happens, it keeps its log and stays in the term it stood in.  Only a response makes a leader:
      in a cluster of one, a candidate has its majority at once and never leads. */
  lemma {:induction false} ElectedIff(c: Node, voters: seq<Node>)
    requires forall i :: 0 <= i < |voters| ==> voters[i].term <= c.term
    ensures
      var m := Polled(c, voters);
      && m.term == c.term + 1 && m.log == c.log && m.peers == c.peers
      && (m.role == Leader <==> Supporters(c, voters) > 0 && 1 + Supporters(c, voters) > c.peers / 2)
      && (m.role != Leader ==> m.role == Candidate && m.votes == 1 + Supporters(c, voters))
      && (voters == [] ==> m.role == Candidate)
  {
    if voters == [] {
    } else {
      var n := |voters| - 1;
      ElectedIff(c, voters[..n]);
      FreshVoteIff(c, voters[n]);
    }
  }

  // ---- The durable log ----------------------------------------------------------------------------

  /** Disk and memory hold the same log. */
  ghost predicate LogDurable(n: Node) {
    DiskOk(n.disk) && Recovered(n.disk) == Ok(n.log)
  }

  /** Beside log writes, disks change only in their term and vote. */
  lemma StateWriteKeepsLog(d: Disk, term: nat, vote: Option<nat>)
    requires DiskOk(d)
    ensures DiskOk(PutState(d, term, vote)) && Recovered(PutState(d, term, vote)) == Recovered(d)
    ensures Opened(d) == d
  {
    var d' := PutState(d, term, vote);
    assert forall i :: Index(i) in d' <==> Index(i) in d;
    if Recovered(d).Ok? { assert Recovered(d').value == Recovered(d).value; }
  }

  /** An accepted batch that names its true indices leaves disk and memory with the same log if and
      only if the request was in sync. */
  lemma EntriesDurableIff(a: Node, q: AppendRequest)
    requires LogDurable(a) && q.entries != [] && q.prevIndex <= |a.log| && Contiguous(q.entries, q.prevIndex + 1)
    ensures LogDurable(OnEntries(a, q, true).0) <==> InSync(a.log, q.prevIndex, q.prevTerm)
  {
    var m := OnEntries(a, q, true).0;
    var kept := if TermAt(a.log, q.prevIndex) != q.prevTerm then Truncated(a.log, q.prevIndex) else a.log;
    assert kept == a.log[..|kept|];
    BatchRecoversMemory(a.disk, a.log, |kept|, q.entries, q.prevIndex + 1);
    WritesKeepDiskOk(a.disk, q.entries, 0, None);
    assert m.log == a.log[..|kept|] + q.entries && m.disk == PutBatch(a.disk, q.entries);
  }

  /** Event e brings entries in sync, with their true indices, if it brings entries that are accepted. */
  ghost predicate InSyncEvent(n: Node, e: Event) {
    e.AppendAsked? && Accepts(n, e.append) ==>
      InSync(n.log, e.append.prevIndex, e.append.prevTerm) && Contiguous(e.append.entries, e.append.prevIndex + 1)
  }

  lemma AppendKeepsLogDurable(n: Node, q: AppendRequest, writeOk: bool)
    requires LogDurable(n) && InSyncEvent(n, AppendAsked(q, writeOk))
    ensures LogDurable(OnAppendRequest(n, q, writeOk).0)
  {
    if q.term >= n.term {
      var a := Admitted(n, q);
      StateWriteKeepsLog(n.disk, q.term, None);
      if q.entries != [] && q.prevIndex <= |a.log| && writeOk { EntriesDurableIff(a, q); }
    }
  }

  lemma KvKeepsLogDurable(n: Node, c: Command, session: nat, requestId: nat, writeOk: bool)
    requires LogDurable(n)
    ensures LogDurable(OnKvRequest(n, c, session, requestId, writeOk).0)
  {
    var e := LogEntry(n.term, |n.log| + 1, c);
    PutEntryIsBatch(n.disk, e);
    BatchRecoversMemory(n.disk, n.log, |n.log|, [e], |n.log| + 1);
    WritesKeepDiskOk(n.disk, [e], 0, None);
    assert n.log[..|n.log|] == n.log;
  }

  lemma StepKeepsLogDurable(n: Node, e: Event)
    requires LogDurable(n) && Can(n, e) && InSyncEvent(n, e)
    ensures LogDurable(After(n, e)) && (e.Restart? ==> After(n, e).log == n.log)
  {
    match e
    case AppendAsked(q, ok) => AppendKeepsLogDurable(n, q, ok);
    case KvAsked(c, s, r, ok) => KvKeepsLogDurable(n, c, s, r, ok);
    case Restart => StateWriteKeepsLog(n.disk, 0, None);
    case VoteAsked(q) => StateWriteKeepsLog(n.disk, q.term, None);
    case VoteAnswered(r) =>
      StateWriteKeepsLog(n.disk, n.term, None);
    case AppendAnswered(r) => StateWriteKeepsLog(n.disk, r.term, None);
    case HeartbeatAnswered(r) => StateWriteKeepsLog(n.disk, r.term, None);
    case _ =>
  }

  /** Durable log: in any history in which accepted entries are in sync, whatever else happens and
      however often the node restarts, its disk gives back exactly its log at every point. */
  lemma {:induction false} DurableLog(run: seq<Node>, es: seq<Event>, j: nat)
    requires IsHistory(run, es) && LogDurable(run[0]) && j < |run|
    requires forall i :: 0 <= i < |es| ==> InSyncEvent(run[i], es[i])
    ensures LogDurable(run[j]) && (0 < j && es[j - 1].Restart? ==> run[j].log == run[j - 1].log)
  {
    if j == 0 {
    } else {
      DurableLog(run, es, j - 1);
      assert EventAt(run, es, j - 1);
      StepKeepsLogDurable(run[j - 1], es[j - 1]);
    }
  }

  /** A node on an empty disk starts with disk and memory in agreement. */
  lemma FirstStartDurable(id: nat, peers: nat, st: Store)
    ensures LogDurable(Started(id, peers, map[], st))
  {}

  // ---- A log and its store, at every crash point --------------------------------------------------

  /** Memory, disk, and the log as it stood after the last append. */
  datatype LogPair = LogPair(mem: seq<LogEntry>, disk: Disk, synced: seq<LogEntry>)

  datatype LogOp = AppendAll(entries: seq<LogEntry>) | TruncateAt(start: nat)

  /** Each operation writes the disk at most once, so a crash leaves the disk of one of these states. */
  function AfterOp(p: LogPair, op: LogOp): LogPair
    requires op.AppendAll? ==> op.entries != []
  {
    match op
    case AppendAll(es) => LogPair(p.mem + es, PutBatch(p.disk, es), p.mem + es)
    case TruncateAt(start) => p.(mem := Truncated(p.mem, start))
  }

  ghost predicate IsLogHistory(run: seq<LogPair>, ops: seq<LogOp>) {
    && |run| == |ops| + 1
    && forall i :: 0 <= i < |ops| ==>
         && (ops[i].AppendAll? ==> ops[i].entries != [] && Contiguous(ops[i].entries, |run[i].mem| + 1))
         && run[i + 1] == AfterOp(run[i], ops[i])
  }

  /** After any history of appends and truncations, where each batch continues the in-memory log,
      recovery returns the log as it stood after the last append: the in-memory log right after an
      append, the log before the truncations in between, and never a mixture. */
  lemma {:induction false} RecoveryAtEveryPoint(run: seq<LogPair>, ops: seq<LogOp>, j: nat)
    requires IsLogHistory(run, ops) && j < |run|
    requires DiskOk(run[0].disk) && Recovered(run[0].disk) == Ok(run[0].mem) && run[0].synced == run[0].mem
    ensures DiskOk(run[j].disk) && Recovered(run[j].disk) == Ok(run[j].synced)
    ensures run[j].mem <= run[j].synced
    ensures 0 < j && ops[j - 1].AppendAll? ==> Recovered(run[j].disk) == Ok(run[j].mem)
  {
    if j == 0 {
    } else {
      RecoveryAtEveryPoint(run, ops, j - 1);
      var p := run[j - 1];
      if ops[j - 1].AppendAll? {
        BatchRecoversMemory(p.disk, p.synced, |p.mem|, ops[j - 1].entries, |p.mem| + 1);
        WritesKeepDiskOk(p.disk, ops[j - 1].entries, 0, None);
        assert p.synced[..|p.mem|] == p.mem;
      }
    }
  }

  // ---- A follower's applies -----------------------------------------------------------------------

  /** Applied exactly once each: the store is the fold of the log up to `applied`. */
  ghost predicate FollowerOk(n: Node, s0: Store) {
    n.applied == n.commit <= |n.log| && n.st == Fold(s0, n.log[..n.applied])
  }

  predicate CutsAbove(n: Node, q: AppendRequest) {
    1 <= q.prevIndex && TermAt(n.log, q.prevIndex) != q.prevTerm ==> n.applied < q.prevIndex
  }

  /** Event e truncates nothing that has been applied, and is not a restart. */
  predicate SparesApplied(n: Node, e: Event) {
    && !e.Restart?
    && (e.AppendAsked? && Accepts(n, e.append) ==> CutsAbove(n, e.append))
  }

  /** No span that a follower applies wraps, and each apply folds in exactly the entries between. */
  lemma AppliedWithinLog(n: Node, s0: Store, leaderCommit: nat)
    requires FollowerOk(n, s0)
    ensures
      var a := if leaderCommit > n.commit then RaiseCommit(n, leaderCommit) else n;
      var m := ApplyCommitted(a);
      && !EntriesView(a.log, a.applied + 1, a.commit).Overrun?
      && n.commit <= a.commit && FollowerOk(m, s0) && m.applied == a.commit && m.log == n.log && m.role == n.role
  {
    var a := if leaderCommit > n.commit then RaiseCommit(n, leaderCommit) else n;
    if EntriesView(a.log, a.applied + 1, a.commit).Span? {
      assert n.log[..a.commit] == n.log[..n.applied] + n.log[n.applied..a.commit];
      ApplyPaths.FoldSplit(s0, n.log[..n.applied], n.log[n.applied..a.commit]);
    }
  }

  lemma EntriesKeepFollower(a: Node, s0: Store, q: AppendRequest, writeOk: bool)
    requires FollowerOk(a, s0) && q.entries != []
    requires q.prevIndex <= |a.log| ==> CutsAbove(a, q)
    ensures var m := OnEntries(a, q, writeOk).0; FollowerOk(m, s0) && a.applied <= m.applied && m.role == a.role
  {
    if q.prevIndex <= |a.log| {
      var cut := if TermAt(a.log, q.prevIndex) != q.prevTerm then Truncated(a.log, q.prevIndex) else a.log;
      var log := Spliced(a.log, q.prevIndex, q.prevTerm, q.entries);
      assert cut[..a.applied] == a.log[..a.applied] && log[..a.applied] == a.log[..a.applied];
      AppliedWithinLog(a.(log := log, disk := PutBatch(a.disk, q.entries)), s0, q.leaderCommit);
    }
  }

  lemma AppendKeepsFollower(n: Node, s0: Store, q: AppendRequest, writeOk: bool)
    requires FollowerOk(n, s0) && (Accepts(n, q) ==> CutsAbove(n, q))
    ensures var m := OnAppendRequest(n, q, writeOk).0; FollowerOk(m, s0) && n.applied <= m.applied
  {
    if q.term >= n.term {
      var a := Admitted(n, q);
      if q.entries == [] { AppliedWithinLog(a, s0, q.leaderCommit); } else { EntriesKeepFollower(a, s0, q, writeOk); }
    }
  }

  lemma OtherEventsSpare(n: Node, e: Event)
    requires n.role != Leader && Can(n, e) && !e.Restart? && !e.AppendAsked?
    ensures
      var m := After(n, e);
      m.log == n.log && m.st == n.st && m.applied == n.applied && m.commit == n.commit
  {}

  lemma StepKeepsFollower(n: Node, s0: Store, e: Event)
    requires FollowerOk(n, s0) && n.role != Leader && Can(n, e) && SparesApplied(n, e)
    ensures FollowerOk(After(n, e), s0) && n.applied <= After(n, e).applied
  {
    if e.AppendAsked? { AppendKeepsFollower(n, s0, e.append, e.writeOk); } else { OtherEventsSpare(n, e); }
  }

  /** Follower apply is exactly-once and independent of batching.  While a node does not lead and
      nothing it has applied is truncated, applied = commit <= last log index, `applied` never goes
      back, and the store is the fold of the log up to `applied`, however the commits were split over
      heartbeats and appends. */
  lemma {:induction false} FollowerAppliesOnce(run: seq<Node>, es: seq<Event>, s0: Store, i: nat, j: nat)
    requires IsHistory(run, es) && FollowerOk(run[0], s0) && i <= j < |run|
    requires forall l :: 0 <= l < |es| ==> run[l].role != Leader && SparesApplied(run[l], es[l])
    ensures FollowerOk(run[j], s0) && run[i].applied <= run[j].applied
    decreases j, j - i
  {
    if j == 0 {
    } else {
      var k := if i < j then i else j - 1;
      FollowerAppliesOnce(run, es, s0, k, j - 1);
      assert EventAt(run, es, j - 1);
      StepKeepsFollower(run[j - 1], s0, es[j - 1]);
    }
  }

  // ---- A follower's restarts ----------------------------------------------------------------------

  /** The furthest index applied in a history so far. */
  function High(run: seq<Node>, j: nat): nat
    requires j < |run|
  {
    if j == 0 then run[0].applied else Max(High(run, j - 1), run[j].applied)
  }

  /** Since the last restart the node has folded its log into `base`, which differs from s0 only where the
      first `high` entries write. */
  ghost predicate ReplayOk(n: Node, s0: Store, base: Store, high: nat) {
    && LogDurable(n) && FollowerOk(n, base)
    && n.applied <= high <= |n.log| && ApplyPaths.AgreeOutside(base, s0, n.log[..high])
  }

  lemma InSyncGrows(n: Node, e: Event)
    requires n.role != Leader && Can(n, e) && !e.Restart? && InSyncEvent(n, e)
    ensures n.log <= After(n, e).log && SparesApplied(n, e)
  {
    if e.AppendAsked? { AppendGrows(n, e.append, e.writeOk); } else { OtherEventsSpare(n, e); }
  }

  lemma EntriesGrow(a: Node, q: AppendRequest, writeOk: bool)
    requires q.entries != [] && (q.prevIndex <= |a.log| ==> InSync(a.log, q.prevIndex, q.prevTerm))
    ensures a.log <= OnEntries(a, q, writeOk).0.log
  {
    if q.prevIndex <= |a.log| { InSyncExtends(a.log, q.prevIndex, q.prevTerm, q.entries); }
  }

  lemma AppendGrows(n: Node, q: AppendRequest, writeOk: bool)
    requires Accepts(n, q) ==> InSync(n.log, q.prevIndex, q.prevTerm)
    ensures n.log <= OnAppendRequest(n, q, writeOk).0.log
  {
    if q.term >= n.term && q.entries != [] { EntriesGrow(Admitted(n, q), q, writeOk); }
  }

  lemma LaterReplayOk(n: Node, m: Node, s0: Store, base: Store, high: nat)
    requires ReplayOk(n, s0, base, high) && LogDurable(m) && FollowerOk(m, base) && n.log <= m.log
    ensures ReplayOk(m, s0, base, Max(high, m.applied))
  {
    assert m.log[..high] == n.log[..high];
    ApplyPaths.AgreeLonger(base, s0, m.log, high, Max(high, m.applied));
  }

  lemma StepKeepsReplay(n: Node, s0: Store, base: Store, high: nat, e: Event) returns (base': Store)
    requires ReplayOk(n, s0, base, high) && n.role != Leader && Can(n, e) && InSyncEvent(n, e)
    ensures ReplayOk(After(n, e), s0, base', Max(high, After(n, e).applied))
  {
    StepKeepsLogDurable(n, e);
    if e.Restart? {
      base' := n.st;
      ApplyPaths.AppliedAgrees(base, s0, n.log, n.applied, high);
    } else {
      base' := base;
      InSyncGrows(n, e);
      StepKeepsFollower(n, base, e);
      LaterReplayOk(n, After(n, e), s0, base, high);
    }
  }

  lemma {:induction false} ReplayHolds(run: seq<Node>, es: seq<Event>, s0: Store, j: nat) returns (base: Store)
    requires IsHistory(run, es) && LogDurable(run[0]) && FollowerOk(run[0], s0) && j < |run|
    requires forall l :: 0 <= l < |es| ==> run[l].role != Leader && InSyncEvent(run[l], es[l])
    ensures ReplayOk(run[j], s0, base, High(run, j))
  {
    if j == 0 {
      base := s0;
    } else {
      base := ReplayHolds(run, es, s0, j - 1);
      assert EventAt(run, es, j - 1);
      base := StepKeepsReplay(run[j - 1], s0, base, High(run, j - 1), es[j - 1]);
    }
  }

  /** Restarts converge.  In any history of a node that does not lead, in which accepted entries are in
      sync, and in which it restarts whenever and as often as it likes, over the store that survives: its
      log always holds everything it ever applied; once it has caught up with the furthest index it ever
      applied, its store is the fold of its log up to there; and a replay from any moment to any index m
      from there on reaches what a replay over the first store would. */
  lemma RestartsConverge(run: seq<Node>, es: seq<Event>, s0: Store, j: nat, m: nat)
    requires IsHistory(run, es) && LogDurable(run[0]) && FollowerOk(run[0], s0) && j < |run|
    requires forall l :: 0 <= l < |es| ==> run[l].role != Leader && InSyncEvent(run[l], es[l])
    ensures
      var n := run[j];
      && n.applied == n.commit <= High(run, j) <= |n.log|
      && (n.applied == High(run, j) ==> n.st == Fold(s0, n.log[..n.applied]))
      && (High(run, j) <= m <= |n.log| ==> Fold(n.st, n.log[..m]) == Fold(s0, n.log[..m]))
  {
    var base := ReplayHolds(run, es, s0, j);
    var n, to := run[j], if High(run, j) <= m <= |run[j].log| then m else |run[j].log|;
    ApplyPaths.ReplayFrom(n.log, s0, base, n.applied, High(run, j), to);
  }

  /** How far one request takes a follower: to the leader's commit index, clipped to the log that the
      request leaves, and never back. */
  lemma FollowerReaches(n: Node, s0: Store, q: AppendRequest, writeOk: bool)
    requires FollowerOk(n, s0) && (Accepts(n, q) ==> CutsAbove(n, q))
    ensures
      var (m, r) := OnAppendRequest(n, q, writeOk);
      && FollowerOk(m, s0)
      && m.applied == (if r.success then Max(n.applied, Min(|m.log|, q.leaderCommit)) else n.applied)
      && (q.entries == [] ==> (r.success <==> q.term >= n.term) && m.log == n.log)
  {
    AppendKeepsFollower(n, s0, q, writeOk);
    if q.term >= n.term {
      var a := Admitted(n, q);
      if q.entries == [] {
        AppliedWithinLog(a, s0, q.leaderCommit);
      } else if q.prevIndex <= |a.log| && writeOk {
        EntriesReach(a, s0, q);
      }
    }
  }

  lemma EntriesReach(a: Node, s0: Store, q: AppendRequest)
    requires FollowerOk(a, s0) && q.entries != [] && q.prevIndex <= |a.log| && CutsAbove(a, q)
    ensures
      var (m, r) := OnEntries(a, q, true);
      r.success && m.applied == Max(a.applied, Min(|m.log|, q.leaderCommit))
  {
    var cut := if TermAt(a.log, q.prevIndex) != q.prevTerm then Truncated(a.log, q.prevIndex) else a.log;
    var log := Spliced(a.log, q.prevIndex, q.prevTerm, q.entries);
    assert cut[..a.applied] == a.log[..a.applied] && log[..a.applied] == a.log[..a.applied];
    AppliedWithinLog(a.(log := log, disk := PutBatch(a.disk, q.entries)), s0, q.leaderCommit);
  }

  // ---- A leader's commits -------------------------------------------------------------------------

  /** A recorded response lowers the commit index exactly when too few tracked members have reached
      the old one. */
  lemma ResponseLowersIff(n: Node, r: AppendResponse)
    requires n.role == Leader && r.term == n.term && r.success
    requires Tracked(n.matchIndex, r.memberId)[r.memberId] < r.lastLogIndex
    ensures
      var m := OnAppendResponse(n, r);
      m.commit < n.commit <==> |Reached(m.matchIndex, n.commit)| < Quorum(|m.matchIndex|)
  {
    var u := Tracked(n.matchIndex, r.memberId)[r.memberId := r.lastLogIndex];
    assert r.memberId in u;
    BelowIff(u, n.commit);
  }

  /** Writes and responses on a leader that tracks the same members before and after; a response in the
      leader's own name, if one arrives, reports no more than the leader's log. */
  ghost predicate LeaderStep(n: Node, e: Event) {
    && (e.KvAsked? || (e.AppendAnswered? && (e.response.memberId == n.id ==> e.response.lastLogIndex <= |n.log|)))
    && Can(n, e)
    && n.role == Leader && After(n, e).role == Leader
    && After(n, e).matchIndex.Keys == n.matchIndex.Keys
  }

  /** The leader's own match index is within its log. */
  ghost predicate OwnIndexOk(n: Node) {
    n.id in n.matchIndex ==> n.matchIndex[n.id] <= |n.log|
  }

  /** The commit point has not dropped, and the commit index is the old one or no lower than the old point. */
  ghost predicate KeepsCommit(n: Node, m: Node) {
    && m.matchIndex.Keys == n.matchIndex.Keys
    && (n.matchIndex != map[] ==>
          && CommitPoint(n.matchIndex) <= CommitPoint(m.matchIndex)
          && (m.commit == n.commit || m.commit >= CommitPoint(n.matchIndex)))
    && (n.matchIndex == map[] ==> m.commit == n.commit)
  }

  lemma WriteKeepsCommit(n: Node, e: Event)
    requires LeaderStep(n, e) && e.KvAsked? && OwnIndexOk(n)
    ensures KeepsCommit(n, After(n, e)) && OwnIndexOk(After(n, e))
  {
    if n.matchIndex != map[] { CommitPointMonotone(n.matchIndex, After(n, e).matchIndex); }
  }

  lemma ResponseKeepsCommit(n: Node, e: Event)
    requires LeaderStep(n, e) && e.AppendAnswered? && OwnIndexOk(n)
    ensures KeepsCommit(n, After(n, e)) && OwnIndexOk(After(n, e))
  {
    var m, r := After(n, e), e.response;
    if r.term == n.term && r.success {
      assert r.memberId in m.matchIndex;
      if n.matchIndex[r.memberId] < r.lastLogIndex {
        CommitPointMonotone(n.matchIndex, n.matchIndex[r.memberId := r.lastLogIndex]);
      }
    }
  }

  ghost predicate LeaderSteps(run: seq<Node>, es: seq<Event>) {
    IsHistory(run, es) && forall l :: 0 <= l < |es| ==> LeaderStep(run[l], es[l])
  }

  lemma RunKeepsCommit(run: seq<Node>, es: seq<Event>, j: nat)
    requires LeaderSteps(run, es) && j < |es| && OwnIndexOk(run[j])
    ensures KeepsCommit(run[j], run[j + 1]) && OwnIndexOk(run[j + 1])
  {
    assert EventAt(run, es, j) && LeaderStep(run[j], es[j]);
    if es[j].KvAsked? { WriteKeepsCommit(run[j], es[j]); } else { ResponseKeepsCommit(run[j], es[j]); }
  }

  lemma {:induction false} OwnIndexHolds(run: seq<Node>, es: seq<Event>, j: nat)
    requires LeaderSteps(run, es) && OwnIndexOk(run[0]) && j < |run|
    ensures OwnIndexOk(run[j])
  {
    if j == 0 {
    } else {
      OwnIndexHolds(run, es, j - 1);
      RunKeepsCommit(run, es, j - 1);
    }
  }

  lemma CommitChains(n: Node, m: Node, m': Node)
    requires KeepsCommit(n, m) && KeepsCommit(m, m')
    ensures KeepsCommit(n, m')
  {}

  /** Commit monotonicity: over the same tracked members, whatever sequence of writes and responses comes in,
      the commit index stays what it was or is at least what those members had reached then.  So it never
      drops once it is no higher than that, as it is after any recorded response. */
  lemma {:induction false} CommitNeverDrops(run: seq<Node>, es: seq<Event>, i: nat, j: nat)
    requires LeaderSteps(run, es) && OwnIndexOk(run[0]) && i <= j < |run|
    ensures KeepsCommit(run[i], run[j])
    ensures run[i].matchIndex != map[] && run[i].commit <= CommitPoint(run[i].matchIndex) ==>
      run[i].commit <= run[j].commit
    decreases j - i
  {
    if i == j {
    } else {
      CommitNeverDrops(run, es, i, j - 1);
      OwnIndexHolds(run, es, j - 1);
      RunKeepsCommit(run, es, j - 1);
      CommitChains(run[i], run[j - 1], run[j]);
    }
  }

  // ---- Catching up --------------------------------------------------------------------------------

  /** A new leader has nothing to resend, and neither has a leader right after a heartbeat. */
  lemma ResendOnce(n: Node)
    ensures Resends(Elected(n)) == map[] && Resends(AfterResends(n)) == map[]
  {
    forall x ensures x !in Resends(Elected(n)) {}
    forall x ensures x !in Resends(AfterResends(n)) {}
  }

  /** The follower rejects a request that starts beyond its log and asks for what it lacks. */
  lemma Rejection(L: Node, F: Node, q: AppendRequest, writeOk: bool)
    requires F.term <= L.term == q.term && q.entries != [] && q.prevIndex > |F.log|
    ensures
      var (F1, r) := OnAppendRequest(F, q, writeOk);
      && F1.log == F.log && F1.id == F.id && F1.term == L.term
      && r == AppendResponse(F.id, L.term, false, |F.log|, |F.log| + 1)
  {}

  /** One-round catch-up: for any leader and any follower whose log is a shorter prefix, one rejection
      followed by one heartbeat resend makes the logs equal, from the empty log too; afterwards the
      leader has nothing left to resend and knows that the follower has everything. */
  lemma OneRoundCatchUp(L: Node, F: Node, q: AppendRequest)
    requires L.role == Leader && F.id != L.id && F.term <= L.term == q.term
    requires F.log <= L.log && |F.log| < |L.log| && q.entries != [] && q.prevIndex > |F.log|
    ensures
      var (F1, rejected) := OnAppendRequest(F, q, true);
      var L1 := OnAppendResponse(L, rejected);
      && F.id in Resends(L1)
      && var (F2, accepted) := OnAppendRequest(F1, Resends(L1)[F.id], true);
         var L2 := AfterResends(L1);
         var L3 := OnAppendResponse(L2, accepted);
         && F2.log == L.log && accepted.success && F2.leaderId == Some(L.id)
         && Resends(L2) == map[] && L3.log == L.log
         && F.id in L3.matchIndex && L3.matchIndex[F.id] >= |L.log|
  {
    Rejection(L, F, q, true);
    var (F1, rejected) := OnAppendRequest(F, q, true);
    var L1 := OnAppendResponse(L, rejected);
    assert Lags(L1, F.id);
    var again := Resends(L1)[F.id];
    assert again == ResendRequest(L1, F.id);
    assert again.prevIndex == |F.log| && again.entries == L.log[|F.log|..] && again.term == L.term;
    ResendAccepted(L1, F1, again);
    var (F2, accepted) := OnAppendRequest(F1, again, true);
    ResendOnce(L1);
    AcceptedTracked(AfterResends(L1), accepted);
  }

  /** The next heartbeat then brings the follower's commits up to the leader's: both have the same log,
      and the follower ends with everything applied that either had committed. */
  lemma HeartbeatDelivers(L: Node, F: Node, s0: Store, writeOk: bool)
    requires L.commit <= |L.log| && F.log == L.log && FollowerOk(F, s0) && F.term <= L.term
    ensures
      var (m, r) := OnAppendRequest(F, AppendRequestOf(L), writeOk);
      && r.success && m.term == L.term && m.leaderId == Some(L.id) && m.log == L.log
      && m.applied == m.commit == Max(F.applied, L.commit)
      && m.st == Fold(s0, L.log[..m.applied])
  {
    FollowerReaches(F, s0, AppendRequestOf(L), writeOk);
  }

  lemma InSyncAccepted(F: Node, q: AppendRequest)
    requires InSync(F.log, q.prevIndex, q.prevTerm) && q.entries != []
    ensures
      var (F2, r) := OnEntries(F, q, true);
      && F2.log == F.log + q.entries && F2.leaderId == F.leaderId
      && r == AppendResponse(F.id, F.term, true, |F2.log|, 1)
  {
    InSyncExtends(F.log, q.prevIndex, q.prevTerm, q.entries);
  }

  lemma ResendAccepted(L: Node, F: Node, q: AppendRequest)
    requires F.log <= L.log && |F.log| < |L.log| && q.term == F.term == L.term
    requires q.prevIndex == |F.log| && q.prevTerm == TermAt(L.log, |F.log|) && q.entries == L.log[|F.log|..]
    ensures
      var (F2, r) := OnAppendRequest(F, q, true);
      && F2.log == L.log && F2.leaderId == Some(q.leaderId)
      && r.success && r.memberId == F.id && r.term == L.term && r.lastLogIndex == |L.log|
  {
    if |F.log| > 0 { assert F.log[|F.log| - 1] == L.log[|F.log| - 1]; }
    assert F.log + q.entries == L.log;
    InSyncAccepted(Admitted(F, q), q);
  }

  lemma AcceptedTracked(L: Node, r: AppendResponse)
    requires L.role == Leader && r.term == L.term && r.success
    ensures
      var m := OnAppendResponse(L, r);
      r.memberId in m.matchIndex && m.matchIndex[r.memberId] >= r.lastLogIndex && m.log == L.log
  {}
}
