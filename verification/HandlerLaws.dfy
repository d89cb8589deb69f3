/** What each handler does to the node, said in its fields, for every node and every message. */
module HandlerLaws {
  import opened Wrappers
  import opened Messages
  import opened Durable
  import opened Logs
  import opened Machine
  import opened Nodes
  import opened NodeRuns

  // ---- The log after an append ------------------------------------------------------------------------------

  /** An accepted request whose term at `prevIndex` is the log's goes to the end of the log, wherever it says it
      starts.  Otherwise everything from `prevIndex` on, that entry included, gives way to it; at index 0,
      where no entry is, nothing does. */
  lemma AcceptedLog(n: Node, q: AppendRequest)
    requires Accepts(n, q)
    ensures
      var (m, r) := OnAppendRequest(n, q, true);
      var agrees := (if q.prevIndex == 0 then 0 else n.log[q.prevIndex - 1].term) == q.prevTerm;
      && m.log == (if agrees || q.prevIndex == 0 then n.log else n.log[..q.prevIndex - 1]) + q.entries
      && r == AppendResponse(n.id, q.term, true, |m.log|, 1)
  {
    AppendedLog(Admitted(n, q), q);
  }

  lemma AppendedLog(a: Node, q: AppendRequest)
    requires q.entries != [] && q.prevIndex <= |a.log|
    ensures
      var (m, r) := OnEntries(a, q, true);
      var agrees := (if q.prevIndex == 0 then 0 else a.log[q.prevIndex - 1].term) == q.prevTerm;
      && m.log == (if agrees || q.prevIndex == 0 then a.log else a.log[..q.prevIndex - 1]) + q.entries
      && r == AppendResponse(a.id, a.term, true, |m.log|, 1)
  {}

  /** A request that is not taken: an old one changes nothing, one that starts beyond the log changes no log,
      and one whose write fails has truncated the log in memory, with the disk as it was. */
  lemma RefusedLog(n: Node, q: AppendRequest, writeOk: bool)
    requires q.term < n.term || (q.entries != [] && (q.prevIndex > |n.log| || !writeOk))
    ensures
      var (m, r) := OnAppendRequest(n, q, writeOk);
      && r == AppendResponse(n.id, if q.term < n.term then n.term else q.term, false, |m.log|, |m.log| + 1)
      && m.st == n.st && m.commit == n.commit && m.applied == n.applied
      && (q.term < n.term ==> m == n)
      && (q.prevIndex > |n.log| || q.prevIndex == 0 ==> m.log == n.log)
      && (q.term >= n.term && 1 <= q.prevIndex <= |n.log| ==>
            m.log == if n.log[q.prevIndex - 1].term == q.prevTerm then n.log else n.log[..q.prevIndex - 1])
      && forall i :: Index(i) in m.disk || Index(i) in n.disk ==>
           Index(i) in m.disk && Index(i) in n.disk && m.disk[Index(i)] == n.disk[Index(i)]
  {}

  // ---- Later and earlier terms -----------------------------------------------------------------------------

  ghost predicate FollowsIn(n: Node, m: Node, t: nat) {
    && m.role == Follower && m.term == t && m.votes == 0 && m.votedFor == None
    && m.log == n.log && m.st == n.st && m.commit == n.commit && m.applied == n.applied && m.tasks == n.tasks
    && m.nextIndex == n.nextIndex && m.matchIndex == n.matchIndex
  }

  /** A response of any kind with a later term makes the node a follower in exactly that term, without a vote;
      heartbeat and append responses do so to a leader only. */
  lemma LaterResponse(n: Node, v: VoteResponse, r: AppendResponse)
    ensures v.term > n.term ==> FollowsIn(n, OnVoteResponse(n, v), v.term)
    ensures r.term > n.term && n.role == Leader ==> FollowsIn(n, OnHeartbeatResponse(n, r), r.term)
    ensures r.term > n.term && n.role == Leader ==> FollowsIn(n, OnAppendResponse(n, r), r.term)
  {}

  /** All but log, store, commit and disk. */
  ghost predicate SameStanding(a: Node, m: Node) {
    && m.id == a.id && m.peers == a.peers && m.role == a.role && m.term == a.term && m.votes == a.votes
    && m.votedFor == a.votedFor && m.leaderId == a.leaderId
    && m.tasks == a.tasks && m.nextIndex == a.nextIndex && m.matchIndex == a.matchIndex
  }

  lemma ApplyTouches(a: Node, leaderCommit: nat)
    ensures SameStanding(a, ApplyCommitted(a)) && SameStanding(a, ApplyCommitted(RaiseCommit(a, leaderCommit)))
  {}

  /** Past the term test, that is what an append request leaves alone. */
  lemma EntriesTouch(a: Node, q: AppendRequest, writeOk: bool)
    ensures SameStanding(a, (if q.entries == [] then OnHeartbeat(a, q) else OnEntries(a, q, writeOk)).0)
  {
    ApplyTouches(a, q.leaderCommit);
    if q.entries != [] && q.prevIndex <= |a.log| && writeOk {
      var b := a.(log := Spliced(a.log, q.prevIndex, q.prevTerm, q.entries), disk := PutBatch(a.disk, q.entries));
      ApplyTouches(b, q.leaderCommit);
    }
  }

  /** A request with a later term does the same before it is dealt with, and the sender of an append request
      that is not of an earlier term is the leader from then on. */
  lemma LaterVoteRequest(n: Node, v: VoteRequest)
    requires v.term > n.term
    ensures FollowsIn(n, OnVoteRequest(n, v).0, v.term)
  {}

  lemma AppendRequestFrom(n: Node, q: AppendRequest, writeOk: bool)
    requires q.term >= n.term
    ensures
      var m := OnAppendRequest(n, q, writeOk).0;
      && m.term == q.term && m.leaderId == Some(q.leaderId) && m.id == n.id && m.peers == n.peers
      && m.tasks == n.tasks && m.nextIndex == n.nextIndex && m.matchIndex == n.matchIndex
      && (q.term > n.term ==> m.role == Follower && m.votes == 0 && m.votedFor == None)
      && (q.term == n.term ==> m.role == n.role && m.votes == n.votes && m.votedFor == n.votedFor)
  {
    EntriesTouch(Admitted(n, q), q, writeOk);
  }

  /** Messages of an earlier term change nothing; neither do heartbeat and append responses to a node that
      does not lead, vote responses to a leader of their term, votes refused, nor heartbeat responses of the
      leader's own term. */
  lemma Ignored(n: Node, v: VoteResponse, r: AppendResponse, vq: VoteRequest)
    ensures v.term < n.term || (v.term == n.term && (n.role == Leader || !v.granted)) ==> OnVoteResponse(n, v) == n
    ensures r.term < n.term || n.role != Leader || r.term == n.term ==> OnHeartbeatResponse(n, r) == n
    ensures r.term < n.term || n.role != Leader ==> OnAppendResponse(n, r) == n
    ensures vq.term < n.term ==> OnVoteRequest(n, vq) == (n, VoteResponse(n.id, n.term, false))
  {}

  /** A leader's append response of its own term touches the sender's progress, the commit and the queue only:
      a refusal sets the sender's next index to what it asks for, a success its match index to what it has. */
  lemma OwnTermResponse(n: Node, r: AppendResponse)
    requires n.role == Leader && r.term == n.term
    ensures
      var m := OnAppendResponse(n, r);
      && m.role == Leader && m.term == n.term && m.log == n.log && m.disk == n.disk && m.leaderId == n.leaderId
      && m.votes == n.votes && m.votedFor == n.votedFor && m.id == n.id && m.peers == n.peers
      && (r.success ==> m.nextIndex == n.nextIndex)
      && (!r.success ==> m == n.(nextIndex := n.nextIndex[r.memberId := r.conflictIndex]))
  {}

  // ---- What is applied -----------------------------------------------------------------------------------------

  /** Node m has committed up to c and applied the entries in between to the store of n: if the next one is in
      the log, and c is not beyond it; otherwise nothing. */
  ghost predicate AppliedTo(n: Node, m: Node, log: seq<LogEntry>, c: nat) {
    && m.commit == c
    && (n.applied < |log| && n.applied <= c <= |log| ==> m.applied == c && m.st == Fold(n.st, log[n.applied..c]))
    && (n.applied >= |log| || c > |log| ==> m.applied == n.applied && m.st == n.st)
  }

  lemma AppliedNow(b: Node)
    ensures ApplyCommitted(b).log == b.log && AppliedTo(b, ApplyCommitted(b), b.log, b.commit)
  {}

  lemma AppliedAfter(b: Node, leaderCommit: nat)
    ensures
      var m := ApplyCommitted(RaiseCommit(b, leaderCommit));
      m.log == b.log && AppliedTo(b, m, b.log, Min(|b.log|, leaderCommit))
  {
    AppliedNow(RaiseCommit(b, leaderCommit));
  }

  /** A heartbeat raises the commit index to the leader's, but not beyond the log, and applies what is
      committed, whether or not the index has moved. */
  lemma HeartbeatApplied(n: Node, q: AppendRequest, writeOk: bool)
    requires q.term >= n.term && q.entries == []
    ensures
      var (m, r) := OnAppendRequest(n, q, writeOk);
      && AppliedTo(n, m, n.log, if q.leaderCommit > n.commit then Min(|n.log|, q.leaderCommit) else n.commit)
      && m.log == n.log && r == AppendResponse(n.id, q.term, true, |n.log|, 1)
  {
    var a := Admitted(n, q);
    AppliedAfter(a, q.leaderCommit);
    AppliedNow(a);
    AppendRequestFrom(n, q, writeOk);
  }

  /** Accepted entries do so only if the leader has committed more than the node knew of. */
  lemma EntriesApplied(n: Node, q: AppendRequest)
    requires Accepts(n, q)
    ensures
      var m := OnAppendRequest(n, q, true).0;
      if q.leaderCommit > n.commit then AppliedTo(n, m, m.log, Min(|m.log|, q.leaderCommit))
      else m.commit == n.commit && m.applied == n.applied && m.st == n.st
  {
    var a := Admitted(n, q);
    AppliedAfter(a.(log := Spliced(a.log, q.prevIndex, q.prevTerm, q.entries), disk := PutBatch(a.disk, q.entries)),
                 q.leaderCommit);
  }

  // ---- What a crash loses ------------------------------------------------------------------------------------

  /** Exactly the steps that raise the term without saving it: a timeout, and a vote response. */
  predicate RaisesUnsaved(e: Event) {
    e.Timeout? || e.VoteAnswered?
  }

  lemma AppendSavesTerm(n: Node, q: AppendRequest, writeOk: bool)
    requires q.term > n.term
    ensures PersistedTerm(OnAppendRequest(n, q, writeOk).0.disk) == q.term
  {
    if q.entries != [] { EntriesKeepTerm(Admitted(n, q), q, writeOk); }
  }

  lemma VoteAskedSaves(n: Node, q: VoteRequest)
    requires q.term > n.term
    ensures PersistedTerm(OnVoteRequest(n, q).0.disk) == q.term == OnVoteRequest(n, q).0.term
  {}

  lemma ResponseSaves(n: Node, r: AppendResponse)
    ensures OnAppendResponse(n, r).term > n.term ==>
      PersistedTerm(OnAppendResponse(n, r).disk) == OnAppendResponse(n, r).term
    ensures OnHeartbeatResponse(n, r).term > n.term ==>
      PersistedTerm(OnHeartbeatResponse(n, r).disk) == OnHeartbeatResponse(n, r).term
  {}

  lemma RaisedTerm(n: Node, e: Event)
    requires PersistedTerm(n.disk) <= n.term && Can(n, e) && After(n, e).term > n.term
    ensures !RaisesUnsaved(e) ==> PersistedTerm(After(n, e).disk) == After(n, e).term
    ensures RaisesUnsaved(e) ==> PersistedTerm(After(n, e).disk) <= n.term
  {
    match e
    case AppendAsked(q, ok) =>
      if q.term >= n.term { AppendRequestFrom(n, q, ok); }
      AppendSavesTerm(n, q, ok);
    case VoteAsked(q) => VoteAskedSaves(n, q);
    case AppendAnswered(r) => ResponseSaves(n, r);
    case HeartbeatAnswered(r) => ResponseSaves(n, r);
    case _ =>
  }

  /** Whatever a node has been through: when a step raises its term, a crash right after it loses the new term
      if and only if the step was a timeout or a vote response.  Requests, and responses to a leader, are on
      the disk by then. */
  lemma RaisedTermLostIff(run: seq<Node>, es: seq<Event>, id: nat, peers: nat, d: Disk, st: Store, j: nat)
    requires IsHistory(run, es) && Opens(d) && run[0] == Started(id, peers, d, st) && j < |es|
    requires run[j + 1].term > run[j].term && Can(run[j + 1], Restart)
    ensures After(run[j + 1], Restart).term < run[j + 1].term <==> RaisesUnsaved(es[j])
    ensures !RaisesUnsaved(es[j]) ==> After(run[j + 1], Restart).term == run[j + 1].term
  {
    DurableTerm(run, es, id, peers, d, st, j, j);
    assert EventAt(run, es, j);
    RaisedTerm(run[j], es[j]);
    WritesKeepTerm(run[j + 1].disk, [LogEntry(0, 0, Unset)]);
  }

  /** What a restart keeps: the log, the term and the vote on the disk, and the user data; nothing else. */
  lemma RestartKeeps(n: Node)
    requires Can(n, Restart)
    ensures
      var m := After(n, Restart);
      && m.id == n.id && m.peers == n.peers && m.st == n.st
      && Recovered(n.disk) == Ok(m.log) && m.term == PersistedTerm(n.disk) && m.votedFor == PersistedVote(n.disk)
      && m.role == Follower && m.votes == 0 && m.leaderId == None && m.commit == m.applied == 0
      && m.nextIndex == map[] && m.matchIndex == map[] && m.tasks == []
  {}

  // ---- Votes ----------------------------------------------------------------------------------------------------

  /** The only vote a node ever remembers is a candidate's own. */
  ghost predicate VoteIsRole(n: Node) {
    n.votedFor == if n.role == Candidate then Some(n.id) else None
  }

  lemma AppendKeepsVoteIsRole(n: Node, q: AppendRequest, writeOk: bool)
    requires VoteIsRole(n)
    ensures VoteIsRole(OnAppendRequest(n, q, writeOk).0)
  {
    if q.term >= n.term { AppendRequestFrom(n, q, writeOk); }
  }

  lemma StepKeepsVoteIsRole(n: Node, e: Event)
    requires VoteIsRole(n) && PersistedVote(n.disk) == None && Can(n, e)
    ensures VoteIsRole(After(n, e))
  {
    if e.AppendAsked? { AppendKeepsVoteIsRole(n, e.append, e.writeOk); }
  }

  lemma {:induction false} VoteIsRoleHolds(run: seq<Node>, es: seq<Event>, j: nat)
    requires IsHistory(run, es) && VoteIsRole(run[0]) && PersistedVote(run[0].disk) == None && j < |run|
    ensures VoteIsRole(run[j])
  {
    if j == 0 {
    } else {
      VoteIsRoleHolds(run, es, j - 1);
      VoteNeverDurable(run, es, j - 1);
      assert EventAt(run, es, j - 1);
      StepKeepsVoteIsRole(run[j - 1], es[j - 1]);
    }
  }

  /** When a member grants its vote, in any history from a disk without one: when the request is of a later
      term, or of its own term and it is not standing itself (or hears its own request), and the candidate's
      log is longer than its own, or as long with the same last term.  Earlier grants make no difference. */
  lemma GrantsIff(run: seq<Node>, es: seq<Event>, j: nat, q: VoteRequest)
    requires IsHistory(run, es) && VoteIsRole(run[0]) && PersistedVote(run[0].disk) == None && j < |run|
    ensures
      var n := run[j];
      OnVoteRequest(n, q).1.granted
      <==> && q.term >= n.term
           && (q.term == n.term && n.role == Candidate ==> q.candidateId == n.id)
           && (q.lastLogIndex > |n.log|
               || (q.lastLogIndex == |n.log|
                   && q.lastLogTerm == if n.log == [] then 0 else n.log[|n.log| - 1].term))
  {
    VoteIsRoleHolds(run, es, j);
  }

  // ---- Client requests ----------------------------------------------------------------------------------------

  /** A leader's write: one entry more in the log and on the disk, one task more at the end of the queue, its
      own progress with the log, and nothing else. */
  lemma WriteLogged(n: Node, c: Command, session: nat, requestId: nat)
    requires n.role == Leader
    ensures
      var (m, outcome) := OnKvRequest(n, c, session, requestId, true);
      var index := |n.log| + 1;
      && m.log == n.log + [LogEntry(n.term, index, c)]
      && m.tasks == n.tasks + [ApplyTask(index, session, requestId, c)]
      && m.matchIndex == n.matchIndex[n.id := index] && m.nextIndex == n.nextIndex[n.id := index + 1]
      && Index(index) in m.disk && m.disk[Index(index)] == Entry(LogEntry(n.term, index, c))
      && LastIndex in m.disk && m.disk[LastIndex] == Number(index)
      && m == n.(log := m.log, tasks := m.tasks, matchIndex := m.matchIndex, nextIndex := m.nextIndex, disk := m.disk)
      && outcome == Deferred(AppendRequest(n.term, n.id, |n.log|, if n.log == [] then 0 else n.log[|n.log| - 1].term,
                                           [LogEntry(n.term, index, c)], n.commit))
  {
    var m := OnKvRequest(n, c, session, requestId, true).0;
    if n.log != [] { assert m.log[|m.log| - 2] == n.log[|n.log| - 1]; }
  }

  /** A heartbeat carries no entries, what the leader has committed, and the position before its last entry. */
  lemma HeartbeatSays(n: Node)
    ensures
      var q := AppendRequestOf(n);
      && q.term == n.term && q.leaderId == n.id && q.entries == [] && q.leaderCommit == n.commit
      && (|n.log| < 2 ==> q.prevIndex == q.prevTerm == 0)
      && (|n.log| >= 2 ==> q.prevIndex == |n.log| - 1 && q.prevTerm == n.log[q.prevIndex - 1].term)
  {}

  // ---- Resends ------------------------------------------------------------------------------------------------

  /** A leader logs commands of any sessions, one after the other. */
  function Wrote(n: Node, cs: seq<Command>): Node {
    if cs == [] then n else OnKvRequest(Wrote(n, cs[..|cs| - 1]), cs[|cs| - 1], 0, 0, true).0
  }

  lemma {:induction false} WroteKeeps(n: Node, cs: seq<Command>)
    requires n.role == Leader
    ensures
      var m := Wrote(n, cs);
      && m.role == Leader && m.term == n.term && m.id == n.id && m.commit == n.commit
      && n.log <= m.log && |m.log| == |n.log| + |cs|
      && forall x :: x != n.id ==> (x in m.nextIndex <==> x in n.nextIndex)
                                   && (x in n.nextIndex ==> m.nextIndex[x] == n.nextIndex[x])
  {
    if cs == [] {
    } else {
      WroteKeeps(n, cs[..|cs| - 1]);
    }
  }

  /** The request that a member which needs the entries from index `next` on gets: they all, from exactly there,
      with the term before them. */
  ghost predicate SendsFrom(n: Node, x: nat, next: nat) {
    && 1 <= next <= |n.log| && x in Resends(n)
    && Resends(n)[x] == AppendRequest(n.term, n.id, next - 1, if next == 1 then 0 else n.log[next - 2].term,
                                      n.log[next - 1..], n.commit)
  }

  lemma ResendsFrom(n: Node, x: nat)
    requires x in n.nextIndex
    ensures 1 <= n.nextIndex[x] <= |n.log| ==> SendsFrom(n, x, n.nextIndex[x])
    ensures !(1 <= n.nextIndex[x] <= |n.log|) ==> x !in Resends(n)
  {}

  lemma TickMoves(n: Node, x: nat)
    requires x in n.nextIndex
    ensures
      var a := AfterResends(n);
      && a == n.(nextIndex := a.nextIndex) && x in a.nextIndex
      && a.nextIndex[x] == if 1 <= n.nextIndex[x] <= |n.log| then |n.log| + 1 else n.nextIndex[x]
  {}

  lemma JoinsUp(n: Node, m: Node, x: nat)
    requires x in n.nextIndex && 1 <= n.nextIndex[x] <= |n.log| < |m.log| && n.log <= m.log
    requires x in m.nextIndex && m.nextIndex[x] == |n.log| + 1
    ensures SendsFrom(n, x, n.nextIndex[x]) && SendsFrom(m, x, |n.log| + 1)
    ensures Resends(n)[x].entries + Resends(m)[x].entries == m.log[n.nextIndex[x] - 1..]
  {
    ResendsFrom(n, x);
    ResendsFrom(m, x);
    TwoParts(n.log, m.log, n.nextIndex[x] - 1);
  }

  lemma TwoParts(log: seq<LogEntry>, longer: seq<LogEntry>, from: nat)
    requires log <= longer && from <= |log|
    ensures log[from..] + longer[|log|..] == longer[from..]
  {
    assert longer[..|log|] == log;
  }

  /** Nothing is skipped and nothing is sent twice.  A tick sends a member what it lacks, from its next index;
      after any further writes the next tick's request starts exactly where the last one ended, and the two
      together are the log from there on.  A member that lacked nothing keeps its next index. */
  lemma ResendContinues(n: Node, x: nat, cs: seq<Command>)
    requires n.role == Leader && x in n.nextIndex && x != n.id && cs != []
    ensures
      var next := n.nextIndex[x];
      var m := Wrote(AfterResends(n), cs);
      if 1 <= next <= |n.log| then
        && SendsFrom(n, x, next) && SendsFrom(m, x, |n.log| + 1)
        && Resends(n)[x].entries + Resends(m)[x].entries == m.log[next - 1..]
      else
        x !in Resends(n) && x in m.nextIndex && m.nextIndex[x] == next
  {
    TickMoves(n, x);
    WroteKeeps(AfterResends(n), cs);
    ResendsFrom(n, x);
    if 1 <= n.nextIndex[x] <= |n.log| {
      JoinsUp(n, Wrote(AfterResends(n), cs), x);
    }
  }

  /** A new leader takes every member it knows of to have its log, and sends what it logs itself from there. */
  lemma ElectedContinues(n: Node, x: nat, cs: seq<Command>)
    requires x in n.nextIndex && x != n.id && cs != []
    ensures
      var e := Elected(n);
      && e.role == Leader && e.term == n.term && e.votes == 0 && e.votedFor == None && e.log == n.log
      && e.nextIndex.Keys == n.nextIndex.Keys && x !in Resends(e)
      && SendsFrom(Wrote(e, cs), x, |n.log| + 1) && Resends(Wrote(e, cs))[x].entries == Wrote(e, cs).log[|n.log|..]
  {
    WroteKeeps(Elected(n), cs);
    ResendsFrom(Elected(n), x);
    ResendsFrom(Wrote(Elected(n), cs), x);
  }

  // ---- Redirects -----------------------------------------------------------------------------------------------

  /** A node that does not lead redirects, to the leader it knows if that is a member; and a leader does not. */
  lemma RedirectsIff(n: Node, c: Command, session: nat, requestId: nat, writeOk: bool)
    ensures
      var (m, outcome) := OnKvRequest(n, c, session, requestId, writeOk);
      && (outcome.Redirect? <==> n.role != Leader)
      && (n.role != Leader ==> m == n)
      && (forall to: nat ::
            outcome == Redirect(Some(to)) <==> n.role != Leader && n.leaderId == Some(to) && to < n.peers)
      && (n.role == Leader ==> (outcome.AppendFailed? <==> !writeOk) && (outcome.Deferred? <==> writeOk))
  {}

  /** Who has taken a leader's heartbeat or entries redirects to that leader, until it hears of another. */
  lemma RedirectsToSender(n: Node, q: AppendRequest, writeOk: bool, c: Command, session: nat, requestId: nat, ok: bool)
    requires q.term >= n.term && n.role != Leader && q.leaderId < n.peers
    ensures
      var m := OnAppendRequest(n, q, writeOk).0;
      OnKvRequest(m, c, session, requestId, ok).1 == Redirect(Some(q.leaderId))
  {
    AppendRequestFrom(n, q, writeOk);
  }
}
