/** The moves from which the runs of module Shortfalls are built: three nodes, in-sync appends and single
    votes. */
module Scenes {
  import opened Messages
  import opened Durable
  import opened Logs
  import opened Machine
  import opened CommitRule
  import opened Nodes
  import opened Clusters
  import opened Elections
  import opened Replication
  import DoubleVotes
  import NodeRuns

  datatype Scene = Scene(run: seq<Cluster>, steps: seq<Step>)

  ghost function Now(sc: Scene): Cluster
    requires sc.run != []
  {
    sc.run[|sc.run| - 1]
  }

  ghost predicate Fair(sc: Scene) {
    && IsRun(3, sc.run, sc.steps) && InSyncAppend(sc.run, sc.steps) && OneVotePerTerm(Now(sc))
    && |Now(sc).nodes| == 3 && forall i :: 0 <= i < 3 ==> Now(sc).nodes[i].id == i && Now(sc).nodes[i].peers == 3
  }

  lemma Start() returns (sc: Scene)
    ensures Fair(sc) && sc.steps == [] && Now(sc) == Initial(3)
  {
    sc := Scene([Initial(3)], []);
  }

  /** A vote request reaches a member that is still in an earlier term, so it cannot be a second vote. */
  ghost predicate FreshVote(s: Cluster, t: Step) {
    Enabled(s, t) && t.Handle? && s.calls[t.k].req.Vote? ==> s.nodes[s.calls[t.k].to].term < s.calls[t.k].req.vote.term
  }

  lemma Go(sc: Scene, t: Step) returns (next: Scene)
    requires Fair(sc) && Enabled(Now(sc), t) && StepInSync(Now(sc), t) && FreshVote(Now(sc), t)
    ensures Fair(next) && next.steps == sc.steps + [t] && Now(next) == Next(Now(sc), t)
    ensures sc.run <= next.run && |next.run| == |sc.run| + 1
  {
    var run := Extend(3, sc.run, sc.steps, t);
    next := Scene(run, sc.steps + [t]);
    forall j | 0 <= j < |next.steps| ensures StepInSync(run[j], next.steps[j]) {
      if j < |sc.steps| { assert StepInSync(sc.run[j], sc.steps[j]); }
    }
    VoteInvHolds(3, sc.run, sc.steps, |sc.steps|);
    VoteInvHolds(3, run, next.steps, |next.steps|);
    DoubleVotes.OneVoteKeptIff(Now(sc), t, 3);
  }

  // ---- Elections ------------------------------------------------------------------------------------------

  /** Node c stands, v hears of it and grants its vote, and c wins with that vote. */
  ghost predicate Elects(s: Cluster, s': Cluster, c: nat, v: nat)
    requires c < |s.nodes| && v < |s.nodes| && c != v
  {
    var n, k := s.nodes[c], |s.calls|;
    && s'.nodes == s.nodes[c := Elected(Campaigning(n).(votes := 2))][v := StepDown(s.nodes[v], n.term + 1, n.term + 1)]
    && s'.won == s.won + {(c, n.term + 1)}
    && |s'.calls| == k + 3 && (forall l :: 0 <= l < k ==> s'.calls[l] == s.calls[l])
    && forall j :: k <= j < k + 3 && j - k != c && j - k != v ==>
         s'.calls[j] == Call(c, j - k, Vote(VoteRequestOf(Campaigning(n))), Pending)
  }

  lemma Grants(c: Node, v: Node)
    requires v.term <= c.term && NodeRuns.Ahead(c, v)
    ensures
      OnVoteRequest(v, VoteRequestOf(Campaigning(c)))
      == (StepDown(v, c.term + 1, c.term + 1), VoteResponse(v.id, c.term + 1, true))
  {}

  lemma Wins(c: Node, id: nat)
    requires c.peers == 3
    ensures OnVoteResponse(Campaigning(c), VoteResponse(id, c.term + 1, true)) == Elected(Campaigning(c).(votes := 2))
  {}

  /** Node c has stood, and v has granted its vote. */
  lemma Ask(sc: Scene, c: nat, v: nat) returns (next: Scene)
    requires Fair(sc) && c < 3 && v < 3 && c != v
    requires
      var s := Now(sc);
      s.nodes[c].role != Leader && s.nodes[v].term <= s.nodes[c].term && NodeRuns.Ahead(s.nodes[c], s.nodes[v])
    ensures Fair(next) && sc.run <= next.run && |next.run| == |sc.run| + 2
    ensures next.steps == sc.steps + [Timeout(c)] + [Handle(|Now(sc).calls| + v, true)]
    ensures
      var s, s', n, k := Now(sc), Now(next), Now(sc).nodes[c], |Now(sc).calls|;
      && s'.nodes == s.nodes[c := Campaigning(n)][v := StepDown(s.nodes[v], n.term + 1, n.term + 1)]
      && s'.won == s.won
      && |s'.calls| == k + 3 && (forall l :: 0 <= l < k ==> s'.calls[l] == s.calls[l])
      && forall j :: k <= j < k + 3 && j - k != c ==>
           s'.calls[j] == Call(c, j - k, Vote(VoteRequestOf(Campaigning(n))),
                               if j - k == v then Answered(Voted(VoteResponse(v, n.term + 1, true))) else Pending)
  {
    var s, k := Now(sc), |Now(sc).calls| + v;
    var n := s.nodes[c];
    Grants(n, s.nodes[v]);
    next := Go(sc, Timeout(c));
    var s1 := Now(next);
    assert s1.calls[k] == Call(c, v, Vote(VoteRequestOf(Campaigning(n))), Pending);
    next := Go(next, Handle(k, true));
  }

  lemma Elect(sc: Scene, c: nat, v: nat) returns (next: Scene)
    requires Fair(sc) && c < 3 && v < 3 && c != v
    requires
      var s := Now(sc);
      s.nodes[c].role != Leader && s.nodes[v].term <= s.nodes[c].term && NodeRuns.Ahead(s.nodes[c], s.nodes[v])
    ensures Fair(next) && Elects(Now(sc), Now(next), c, v) && sc.run <= next.run
    ensures
      var k := |Now(sc).calls| + v;
      next.steps == sc.steps + [Timeout(c), Handle(k, true), Return(k)] && |next.run| == |sc.run| + 3
  {
    var k := |Now(sc).calls| + v;
    Wins(Now(sc).nodes[c], v);
    next := Ask(sc, c, v);
    next := Go(next, Return(k));
    assert next.steps == sc.steps + [Timeout(c), Handle(k, true), Return(k)];
  }

  // ---- Writes -------------------------------------------------------------------------------------------------

  /** Node l logs command c for request id of session 0, and sends it to the others. */
  ghost predicate Writes(s: Cluster, s': Cluster, l: nat, c: Command, id: nat)
    requires l < |s.nodes|
  {
    var n, k := s.nodes[l], |s.calls|;
    var e := LogEntry(n.term, |n.log| + 1, c);
    && |s'.nodes| == |s.nodes| && s'.won == s.won
    && s'.nodes == s.nodes[l := n.(log := n.log + [e], disk := s'.nodes[l].disk,
                                   matchIndex := n.matchIndex[l := e.index], nextIndex := n.nextIndex[l := e.index + 1],
                                   tasks := n.tasks + [ApplyTask(e.index, 0, id, c)])]
    && |s'.calls| == k + 3 && (forall j :: 0 <= j < k ==> s'.calls[j] == s.calls[j])
    && forall j :: k <= j < k + 3 && j - k != l ==>
         s'.calls[j]
         == Call(l, j - k, Append(AppendRequest(n.term, l, |n.log|, TermAt(n.log, |n.log|), [e], n.commit)), Pending)
  }

  lemma Write(sc: Scene, l: nat, c: Command, id: nat) returns (next: Scene)
    requires Fair(sc) && l < 3 && Now(sc).nodes[l].role == Leader
    ensures Fair(next) && Writes(Now(sc), Now(next), l, c, id) && sc.run <= next.run
    ensures next.steps == sc.steps + [Client(l, c, 0, id, true)] && |next.run| == |sc.run| + 1
  {
    KvLogged(Now(sc).nodes[l], c, 0, id, true);
    next := Go(sc, Client(l, c, 0, id, true));
  }

  // ---- Deliveries -------------------------------------------------------------------------------------------

  /** Only node i changes, to m, and only call k, to stage g. */
  ghost predicate Changes(s: Cluster, s': Cluster, i: nat, m: Node, k: nat, g: Stage)
    requires i < |s.nodes| && k < |s.calls|
  {
    s'.nodes == s.nodes[i := m] && s'.calls == s.calls[k := s.calls[k].(stage := g)] && s'.won == s.won
  }

  /** The receiver of call k appends its entries, which fit. */
  lemma Take(sc: Scene, k: nat) returns (next: Scene)
    requires Fair(sc) && Enabled(Now(sc), Handle(k, true)) && Now(sc).calls[k].req.Append?
    requires
      var n, q := Now(sc).nodes[Now(sc).calls[k].to], Now(sc).calls[k].req.append;
      && Accepts(n, q) && InSync(n.log, q.prevIndex, q.prevTerm) && q.leaderCommit <= n.commit
      && n.applied == n.commit <= |n.log|
    ensures Fair(next) && next.steps == sc.steps + [Handle(k, true)] && sc.run <= next.run
    ensures |next.run| == |sc.run| + 1
    ensures
      var c := Now(sc).calls[k];
      var n, q := Now(sc).nodes[c.to], c.req.append;
      var m := Admitted(n, q).(log := n.log + q.entries, disk := PutBatch(Admitted(n, q).disk, q.entries));
      Changes(Now(sc), Now(next), c.to, m, k, Answered(Appended(AppendReply(m, true, 1))))
  {
    var c := Now(sc).calls[k];
    var n, q := Now(sc).nodes[c.to], c.req.append;
    InSyncExtends(n.log, q.prevIndex, q.prevTerm, q.entries);
    next := Go(sc, Handle(k, true));
  }

  /** The same, when the receiver may have something to commit besides. */
  lemma TakeAndCommit(sc: Scene, k: nat) returns (next: Scene)
    requires Fair(sc) && Enabled(Now(sc), Handle(k, true)) && Now(sc).calls[k].req.Append?
    requires
      var n, q := Now(sc).nodes[Now(sc).calls[k].to], Now(sc).calls[k].req.append;
      Accepts(n, q) && InSync(n.log, q.prevIndex, q.prevTerm) && n.applied == n.commit <= |n.log|
    ensures Fair(next) && next.steps == sc.steps + [Handle(k, true)] && sc.run <= next.run
    ensures |next.run| == |sc.run| + 1
    ensures
      var c, s' := Now(sc).calls[k], Now(next);
      var n, q, m := Now(sc).nodes[c.to], c.req.append, s'.nodes[c.to];
      && m.id == n.id && m.peers == n.peers && m.term == q.term && m.log == n.log + q.entries
      && Changes(Now(sc), s', c.to, m, k, Answered(Appended(AppendResponse(n.id, q.term, true, |m.log|, 1))))
  {
    var c := Now(sc).calls[k];
    var n, q := Now(sc).nodes[c.to], c.req.append;
    HandledInSync(n, c.req, true);
    HandledEffect(n, c.req, true);
    EntriesInSync(Admitted(n, q), q, true);
    next := Go(sc, Handle(k, true));
  }

  /** The receiver of call k refuses its entries, which start beyond its log. */
  lemma Refuse(sc: Scene, k: nat) returns (next: Scene)
    requires Fair(sc) && Enabled(Now(sc), Handle(k, true)) && Now(sc).calls[k].req.Append?
    requires
      var n, q := Now(sc).nodes[Now(sc).calls[k].to], Now(sc).calls[k].req.append;
      q.entries != [] && n.term <= q.term && q.prevIndex > |n.log|
    ensures Fair(next) && next.steps == sc.steps + [Handle(k, true)] && sc.run <= next.run
    ensures |next.run| == |sc.run| + 1
    ensures
      var c := Now(sc).calls[k];
      var m := Admitted(Now(sc).nodes[c.to], c.req.append);
      Changes(Now(sc), Now(next), c.to, m, k, Answered(Appended(AppendReply(m, false, |m.log| + 1))))
  {
    next := Go(sc, Handle(k, true));
  }

  /** The sender of call k hears that the entries are not taken. */
  lemma HearRefusal(sc: Scene, k: nat) returns (next: Scene)
    requires Fair(sc) && Enabled(Now(sc), Return(k)) && Now(sc).calls[k].req.Append?
    requires
      var c := Now(sc).calls[k];
      var n, r := Now(sc).nodes[c.from], c.stage.resp.append;
      c.req.append.entries != [] && n.role == Leader && r.term == n.term && !r.success
    ensures Fair(next) && next.steps == sc.steps + [Return(k)] && sc.run <= next.run && |next.run| == |sc.run| + 1
    ensures
      var c := Now(sc).calls[k];
      var n, r := Now(sc).nodes[c.from], c.stage.resp.append;
      var m := n.(nextIndex := n.nextIndex[r.memberId := r.conflictIndex]);
      Changes(Now(sc), Now(next), c.from, m, k, Done(c.stage.resp))
  {
    next := Go(sc, Return(k));
  }

  /** The sender of call k hears that the entries are taken, and commits up to x. */
  lemma HearSuccess(sc: Scene, k: nat, x: nat) returns (next: Scene)
    requires Fair(sc) && Enabled(Now(sc), Return(k)) && Now(sc).calls[k].req.Append?
    requires
      var c := Now(sc).calls[k];
      var n, r := Now(sc).nodes[c.from], c.stage.resp.append;
      && c.req.append.entries != [] && n.role == Leader && r.term == n.term && r.success
      && Tracked(n.matchIndex, r.memberId)[r.memberId] < r.lastLogIndex
      && IsCommitPoint(Tracked(n.matchIndex, r.memberId)[r.memberId := r.lastLogIndex], x)
    ensures Fair(next) && next.steps == sc.steps + [Return(k)] && sc.run <= next.run && |next.run| == |sc.run| + 1
    ensures
      var c := Now(sc).calls[k];
      var n, r := Now(sc).nodes[c.from], c.stage.resp.append;
      var d := Ready(n.tasks, x);
      var m := n.(matchIndex := Tracked(n.matchIndex, r.memberId)[r.memberId := r.lastLogIndex],
                  commit := x, applied := x, tasks := n.tasks[d..], st := RunTasks(n.st, n.tasks[..d]));
      Changes(Now(sc), Now(next), c.from, m, k, Done(c.stage.resp))
  {
    var c := Now(sc).calls[k];
    var n, r := Now(sc).nodes[c.from], c.stage.resp.append;
    var m := Tracked(n.matchIndex, r.memberId)[r.memberId := r.lastLogIndex];
    assert r.memberId in m;
    CommitPointUnique(m, x, CommitPoint(m));
    next := Go(sc, Return(k));
  }

  /** Leader l's heartbeat: a resend to every member that lags, and a heartbeat to everybody. */
  ghost predicate Beats(s: Cluster, s': Cluster, l: nat)
    requires l < |s.nodes|
  {
    var k, n := |s.calls|, s.nodes[l];
    && s'.nodes == s.nodes[l := AfterResends(n)] && s'.won == s.won
    && |s'.calls| == k + 6 && (forall j :: 0 <= j < k ==> s'.calls[j] == s.calls[j])
    && (forall j :: k <= j < k + 3 && j - k != l && Lags(n, j - k) ==>
          s'.calls[j] == Call(l, j - k, Append(ResendRequest(n, j - k)), Pending))
    && (forall j :: k + 3 <= j < k + 6 && j - k - 3 != l ==>
          s'.calls[j] == Call(l, j - k - 3, Append(AppendRequestOf(n)), Pending))
  }

  lemma TickBeats(s: Cluster, l: nat)
    requires l < |s.nodes| == 3 && Enabled(s, Tick(l))
    ensures Beats(s, OnTick(s, l), l)
  {
    var s', k, n := OnTick(s, l), |s.calls|, s.nodes[l];
    var heartbeat := AppendRequestOf(n);
    var resends, beats := ResendCalls(3, l, Resends(n), heartbeat), Broadcast(3, l, Append(heartbeat));
    forall j | k <= j < k + 6 ensures s'.calls[j] == if j < k + 3 then resends[j - k] else beats[j - k - 3] {}
  }

  lemma Beat(sc: Scene, l: nat) returns (next: Scene)
    requires Fair(sc) && l < 3 && Now(sc).nodes[l].role == Leader
    ensures Fair(next) && next.steps == sc.steps + [Tick(l)] && sc.run <= next.run && |next.run| == |sc.run| + 1
    ensures Beats(Now(sc), Now(next), l)
  {
    TickBeats(Now(sc), l);
    next := Go(sc, Tick(l));
  }

  /** A last step that need not be in sync. */
  lemma Finish(sc: Scene, t: Step) returns (run: seq<Cluster>)
    requires Fair(sc) && Enabled(Now(sc), t) && FreshVote(Now(sc), t)
    ensures IsRun(3, run, sc.steps + [t]) && |run| == |sc.run| + 1 && run[..|sc.run|] == sc.run
    ensures run[|sc.run|] == Next(Now(sc), t) && OneVotePerTerm(run[|sc.run|])
  {
    run := Extend(3, sc.run, sc.steps, t);
    VoteInvHolds(3, sc.run, sc.steps, |sc.steps|);
    DoubleVotes.OneVoteKeptIff(Now(sc), t, 3);
  }
}
