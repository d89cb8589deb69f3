/** Runs that show what goes wrong where a hypothesis fails or a property ends.  They are built from the
    moves of module Scenes, so every vote in them is single and every append in sync unless it is said not
    to be; what is out of order is only that some messages are late. */
module Shortfalls {
  import opened Messages
  import opened Logs
  import opened Machine
  import opened CommitRule
  import opened Nodes
  import opened Clusters
  import opened Elections
  import opened Replication
  import opened Matching
  import opened Commits
  import opened Scenes

  // ---- A commit that one member holds, and that goes back --------------------------------------------

  /** Leader of term t, with what it has logged, committed and queued. */
  ghost predicate Leads(n: Node, t: nat, log: seq<LogEntry>, commit: nat, m: MatchMap, tasks: seq<ApplyTask>) {
    && n.role == Leader && n.term == t && n.log == log && n.commit == n.applied == commit
    && n.matchIndex == m && n.tasks == tasks
  }

  ghost predicate Holds(n: Node, t: nat, log: seq<LogEntry>, commit: nat) {
    n.term == t && n.log == log && n.commit == n.applied == commit
  }

  function E1(c1: Command): LogEntry { LogEntry(1, 1, c1) }
  function E2(c2: Command): LogEntry { LogEntry(1, 2, c2) }

  /** Leader 0 of term 1 has two writes.  Member 1 has taken the first and says so in call 4; it is still on
      its way to member 2 in call 5. */
  ghost predicate FirstTaken(s: Cluster, c1: Command, c2: Command) {
    && |s.nodes| == 3 && |s.calls| == 9
    && Leads(s.nodes[0], 1, [E1(c1), E2(c2)], 0, map[0 := 2], [ApplyTask(1, 0, 0, c1), ApplyTask(2, 0, 1, c2)])
    && Holds(s.nodes[1], 1, [E1(c1)], 0) && Holds(s.nodes[2], 0, [], 0)
    && s.calls[4].req == s.calls[5].req == Append(AppendRequest(1, 0, 0, 0, [E1(c1)], 0))
    && s.calls[4].from == 0 && s.calls[4].stage == Answered(Appended(AppendResponse(1, 1, true, 1, 1)))
    && s.calls[5].from == 0 && s.calls[5].to == 2 && s.calls[5].stage == Pending
  }

  const Election: seq<Step> := [Timeout(0), Handle(1, true), Return(1)]

  lemma FirstWrite(c1: Command) returns (sc: Scene)
    ensures Fair(sc) && sc.steps == Election + [Client(0, c1, 0, 0, true)]
    ensures
      var s := Now(sc);
      && Leads(s.nodes[0], 1, [E1(c1)], 0, map[0 := 1], [ApplyTask(1, 0, 0, c1)])
      && s.nodes[0].nextIndex == map[0 := 2]
      && Holds(s.nodes[1], 1, [], 0) && Holds(s.nodes[2], 0, [], 0) && |s.calls| == 6
      && s.calls[4] == Call(0, 1, Append(AppendRequest(1, 0, 0, 0, [E1(c1)], 0)), Pending)
      && s.calls[5] == Call(0, 2, Append(AppendRequest(1, 0, 0, 0, [E1(c1)], 0)), Pending)
  {
    sc := Start();
    sc := Elect(sc, 0, 1);
    sc := Write(sc, 0, c1, 0);
    assert map[][0 := 1] == map[0 := 1] && map[][0 := 2] == map[0 := 2];
  }

  lemma TwoWrites(c1: Command, c2: Command) returns (sc: Scene)
    ensures Fair(sc) && FirstTaken(Now(sc), c1, c2)
    ensures sc.steps == Election + [Client(0, c1, 0, 0, true)] + [Handle(4, true)] + [Client(0, c2, 0, 1, true)]
  {
    sc := FirstWrite(c1);
    sc := Take(sc, 4);
    sc := Write(sc, 0, c2, 1);
    assert [E1(c1)] + [E2(c2)] == [E1(c1), E2(c2)] && map[0 := 1][0 := 2] == map[0 := 2];
    assert [ApplyTask(1, 0, 0, c1)] + [ApplyTask(2, 0, 1, c2)] == [ApplyTask(1, 0, 0, c1), ApplyTask(2, 0, 1, c2)];
  }

  /** The leader has committed both writes, and member 0 alone holds them. */
  ghost predicate HeldAlone(s: Cluster, c1: Command, c2: Command) {
    && |s.nodes| == 3 && |s.calls| == 9
    && Leads(s.nodes[0], 1, [E1(c1), E2(c2)], 2, map[0 := 2, 1 := 1], [])
    && Holders(s, 0, 2) == {0} && Holds(s.nodes[2], 0, [], 0)
    && s.calls[5] == Call(0, 2, Append(AppendRequest(1, 0, 0, 0, [E1(c1)], 0)), Pending)
  }

  lemma TwoTracked()
    ensures IsCommitPoint(map[0 := 2, 1 := 1], 2) && Tracked(map[0 := 2], 1)[1 := 1] == map[0 := 2, 1 := 1]
  {
    var m := map[0 := 2, 1 := 1];
    assert map[0 := 2][1 := 0][1 := 1] == m && m.Keys == {0, 1};
    OneOfTwoSuffices(m, 0, 1);
  }

  lemma ThreeTracked()
    ensures IsCommitPoint(map[0 := 2, 1 := 1, 2 := 1], 1)
    ensures Tracked(map[0 := 2, 1 := 1], 2)[2 := 1] == map[0 := 2, 1 := 1, 2 := 1]
  {
    var m := map[0 := 2, 1 := 1, 2 := 1];
    assert map[0 := 2, 1 := 1][2 := 0][2 := 1] == m && m.Keys == {0, 1, 2} && |m| == |m.Keys| == 3;
    assert Reached(m, 1) == {0, 1, 2};
    forall x | x > 1 ensures |Reached(m, x)| < Quorum(|m|) { SubsetSize(Reached(m, x), {0}); }
  }

  lemma BothReady(c1: Command, c2: Command)
    ensures
      var ts := [ApplyTask(1, 0, 0, c1), ApplyTask(2, 0, 1, c2)];
      Ready(ts, 2) == 2 && ts[2..] == []
  {}

  lemma HoldersAre(s: Cluster, c1: Command, c2: Command)
    requires |s.nodes| == 3 && s.nodes[0].log == [E1(c1), E2(c2)] && s.nodes[1].log == [E1(c1)] && s.nodes[2].log == []
    ensures Holders(s, 0, 2) == {0}
  {}

  lemma SecondCommitted(c1: Command, c2: Command) returns (before: Scene, sc: Scene)
    ensures Fair(sc) && HeldAlone(Now(sc), c1, c2) && before.run <= sc.run && |sc.run| == |before.run| + 1
    ensures FirstTaken(Now(before), c1, c2) && sc.steps == before.steps + [Return(4)]
    ensures before.steps == Election + [Client(0, c1, 0, 0, true)] + [Handle(4, true)] + [Client(0, c2, 0, 1, true)]
  {
    before := TwoWrites(c1, c2);
    TwoTracked();
    BothReady(c1, c2);
    sc := HearSuccess(before, 4, 2);
    HoldersAre(Now(sc), c1, c2);
  }

  /** A commit need not be a majority's.  In this run of three members the leader tracks itself and one other
      member; it commits its second write, and releases the reply to it, while nobody else holds it. */
  lemma MinorityCommit(c1: Command, c2: Command) returns (sc: Scene)
    ensures Fair(sc) && HeldAlone(Now(sc), c1, c2) && MovesCommit(3, sc.run, sc.steps, 6, 0)
    ensures
      sc.steps == Election + [Client(0, c1, 0, 0, true)] + [Handle(4, true)] + [Client(0, c2, 0, 1, true)] + [Return(4)]
  {
    var before;
    before, sc := SecondCommitted(c1, c2);
    assert |sc.steps| == 7 && sc.steps[6] == Return(4);
    assert StepAt(sc.run, sc.steps, 6) && sc.run[6] == Now(before) && sc.run[7] == Now(sc);
  }

  lemma ThirdTakes(c1: Command, c2: Command) returns (before: Scene, sc: Scene)
    ensures Fair(before) && HeldAlone(Now(before), c1, c2) && |before.steps| == 7
    ensures Fair(sc) && before.run <= sc.run && sc.steps == before.steps + [Handle(5, true)]
    ensures
      var s := Now(sc);
      && Leads(s.nodes[0], 1, [E1(c1), E2(c2)], 2, map[0 := 2, 1 := 1], []) && |s.calls| == 9
      && s.calls[5].from == 0 && s.calls[5].req == Append(AppendRequest(1, 0, 0, 0, [E1(c1)], 0))
      && s.calls[5].stage == Answered(Appended(AppendResponse(2, 1, true, 1, 1)))
  {
    before := MinorityCommit(c1, c2);
    sc := Take(before, 5);
  }

  /** A commit can go back.  When the leader of MinorityCommit hears from its third member, which has one
      write only, its commit index drops below the write that it has already answered. */
  lemma CommitGoesBack(c1: Command, c2: Command) returns (sc: Scene)
    ensures Fair(sc) && |sc.steps| == 9 && sc.steps[7..] == [Handle(5, true), Return(5)]
    ensures HeldAlone(sc.run[7], c1, c2)
    ensures Leads(Now(sc).nodes[0], 1, [E1(c1), E2(c2)], 1, map[0 := 2, 1 := 1, 2 := 1], [])
  {
    var before, taken := ThirdTakes(c1, c2);
    ThreeTracked();
    sc := HearSuccess(taken, 5, 1);
    assert sc.run[7] == Now(before) && sc.steps == before.steps + [Handle(5, true)] + [Return(5)];
  }

  // ---- Appends that are out of sync ---------------------------------------------------------------------

  /** What the accepting path does with entries that start at 0: it compares nothing and appends. */
  lemma TakenAgain(n: Node, q: AppendRequest)
    requires q.entries != [] && q.prevIndex == q.prevTerm == 0 && n.term <= q.term && n.log != []
    ensures Accepts(n, q) && !InSync(n.log, 0, 0) && OnAppendRequest(n, q, true).0.log == n.log + q.entries
  {
    assert OnEntries(Admitted(n, q), q, true).0.log == n.log + q.entries;
  }

  /** A log that repeats its first entry after n > 0 entries no longer matches, nor names its positions. */
  lemma RepeatedDiffers(x: seq<LogEntry>, n: nat)
    requires 0 < n <= |x| && 1 < |x| && Contiguous(x, 1) && forall i :: 0 <= i < |x| ==> x[i].term == 1
    ensures n < |x| ==> !Match(x, x[..n] + x)
    ensures !Contiguous(x[..n] + x, 1)
  {
    var y := x[..n] + x;
    assert y[n] == x[0];
    if n < |x| { assert x[n].term == y[n].term && x[..n + 1][n] != y[..n + 1][n]; }
  }

  /** Leader 0 of term 1 with the given log has heard that member 1 lacks everything. */
  ghost predicate Refused(s: Cluster, log: seq<LogEntry>, calls: nat) {
    && |s.nodes| == 3 && |s.calls| == calls && calls > 6
    && s.nodes[0].role == Leader && s.nodes[0].term == 1 && s.nodes[0].log == log && s.nodes[0].commit == 0
    && s.nodes[0].id == 0 && 1 in s.nodes[0].nextIndex && s.nodes[0].nextIndex[1] == 1
    && Holds(s.nodes[1], 1, [], 0)
  }

  /** The request that resends the whole log. */
  function Whole(log: seq<LogEntry>): AppendRequest {
    AppendRequest(1, 0, 0, 0, log, 0)
  }

  lemma WholeResent(sc: Scene, log: seq<LogEntry>, k: nat) returns (next: Scene)
    requires Fair(sc) && Refused(Now(sc), log, k) && log != []
    ensures Fair(next) && next.steps == sc.steps + [Tick(0)] && sc.run <= next.run && |next.run| == |sc.run| + 1
    ensures
      var s, s' := Now(sc), Now(next);
      && |s'.calls| == k + 6 && s'.calls[..k] == s.calls && s'.calls[k + 1] == Call(0, 1, Append(Whole(log)), Pending)
      && s'.nodes[1] == s.nodes[1] && s'.nodes[0].log == log && s'.nodes[0].role == Leader
      && s'.nodes[0].term == 1 && s'.nodes[0].commit == 0 && s'.nodes[0].id == 0
  {
    next := Beat(sc, 0);
    var n := Now(sc).nodes[0];
    assert Lags(n, 1) && n.log[0..] == n.log && ResendRequest(n, 1) == Whole(log);
    assert Now(next).calls[k + 1].to == 1;
  }

  lemma SecondRefused(c1: Command, c2: Command) returns (sc: Scene)
    ensures Fair(sc) && Refused(Now(sc), [E1(c1), E2(c2)], 9)
    ensures Now(sc).calls[4] == Call(0, 1, Append(AppendRequest(1, 0, 0, 0, [E1(c1)], 0)), Pending)
    ensures
      sc.steps
      == Election + [Client(0, c1, 0, 0, true)] + [Client(0, c2, 0, 1, true)] + [Handle(7, true)] + [Return(7)]
  {
    sc := FirstWrite(c1);
    sc := Write(sc, 0, c2, 1);
    assert [E1(c1)] + [E2(c2)] == [E1(c1), E2(c2)];
    sc := Refuse(sc, 7);
    sc := HearRefusal(sc, 7);
  }

  lemma FirstLate(c1: Command, c2: Command) returns (sc: Scene)
    ensures Fair(sc)
    ensures
      sc.steps
      == Election + [Client(0, c1, 0, 0, true)] + [Client(0, c2, 0, 1, true)] + [Handle(7, true)] + [Return(7)]
         + [Tick(0)] + [Handle(4, true)]
    ensures
      var s := Now(sc);
      && |s.calls| == 15 && s.calls[10] == Call(0, 1, Append(Whole([E1(c1), E2(c2)])), Pending)
      && s.nodes[0].log == [E1(c1), E2(c2)] && s.nodes[1].log == [E1(c1)] && s.nodes[1].term == 1
  {
    sc := SecondRefused(c1, c2);
    var first := Now(sc).calls[4];
    sc := WholeResent(sc, [E1(c1), E2(c2)], 9);
    assert Now(sc).calls[4] == Now(sc).calls[..9][4] == first;
    sc := Take(sc, 4);
  }

  /** A refused write that is resent before an earlier write is handled breaks log matching: every append but
      the last is in sync, and the last starts before the end of the log it is appended to. */
  lemma LateWriteRepeats(c1: Command, c2: Command) returns (before: Scene, run: seq<Cluster>)
    ensures Fair(before) && IsRun(3, run, before.steps + [Handle(10, true)]) && run[..|before.run|] == before.run
    ensures |run| == 11 && OneVotePerTerm(run[10]) && |run[10].nodes| == 3 && !StepInSync(run[9], Handle(10, true))
    ensures
      before.steps
      == Election + [Client(0, c1, 0, 0, true)] + [Client(0, c2, 0, 1, true)] + [Handle(7, true)] + [Return(7)]
         + [Tick(0)] + [Handle(4, true)]
    ensures
      var x, y := run[10].nodes[0].log, run[10].nodes[1].log;
      x == [E1(c1), E2(c2)] && y == [E1(c1), E1(c1), E2(c2)] && !Match(x, y) && !Contiguous(y, 1)
  {
    before := FirstLate(c1, c2);
    var s, x := Now(before), [E1(c1), E2(c2)];
    TakenAgain(s.nodes[1], Whole(x));
    RepeatedDiffers(x, 1);
    assert x[..1] == [E1(c1)] && [E1(c1)] + x == [E1(c1), E1(c1), E2(c2)];
    run := Finish(before, Handle(10, true));
    assert run[9] == run[..10][9] == s && run[10].nodes[0] == s.nodes[0];
  }

  // ---- The same without overtaking -------------------------------------------------------------------------

  function E3(c3: Command): LogEntry { LogEntry(1, 3, c3) }

  /** Two writes are refused, in calls 7 and 10, while an earlier one is lost. */
  lemma BothRefused(c1: Command, c2: Command, c3: Command) returns (sc: Scene)
    ensures Fair(sc)
    ensures
      sc.steps
      == Election + [Client(0, c1, 0, 0, true)] + [Client(0, c2, 0, 1, true)] + [Client(0, c3, 0, 2, true)]
         + [Handle(7, true)] + [Handle(10, true)]
    ensures
      var s := Now(sc);
      && |s.nodes| == 3 && |s.calls| == 12 && s.nodes[0].role == Leader && s.nodes[0].id == 0 && s.nodes[0].term == 1
      && s.nodes[0].log == [E1(c1), E2(c2), E3(c3)] && s.nodes[0].commit == 0 && Holds(s.nodes[1], 1, [], 0)
      && s.calls[7].from == s.calls[10].from == 0 && s.calls[7].req.Append? && s.calls[10].req.Append?
      && s.calls[7].req.append.entries != [] && s.calls[10].req.append.entries != []
      && s.calls[7].stage == s.calls[10].stage == Answered(Appended(AppendResponse(1, 1, false, 0, 1)))
  {
    sc := FirstWrite(c1);
    sc := Write(sc, 0, c2, 1);
    assert [E1(c1)] + [E2(c2)] == [E1(c1), E2(c2)];
    sc := Write(sc, 0, c3, 2);
    assert [E1(c1), E2(c2)] + [E3(c3)] == [E1(c1), E2(c2), E3(c3)];
    sc := Refuse(sc, 7);
    sc := Refuse(sc, 10);
  }

  lemma ResentTwice(c1: Command, c2: Command, c3: Command) returns (sc: Scene)
    ensures Fair(sc)
    ensures
      sc.steps
      == Election + [Client(0, c1, 0, 0, true)] + [Client(0, c2, 0, 1, true)] + [Client(0, c3, 0, 2, true)]
         + [Handle(7, true)] + [Handle(10, true)] + [Return(7)] + [Tick(0)] + [Return(10)] + [Tick(0)]
    ensures
      var s, log := Now(sc), [E1(c1), E2(c2), E3(c3)];
      && |s.calls| == 24 && s.calls[13] == s.calls[19] == Call(0, 1, Append(Whole(log)), Pending)
      && s.nodes[0].log == log && Holds(s.nodes[1], 1, [], 0)
  {
    var log := [E1(c1), E2(c2), E3(c3)];
    sc := BothRefused(c1, c2, c3);
    sc := HearRefusal(sc, 7);
    var late := Now(sc).calls[10];
    sc := WholeResent(sc, log, 12);
    assert Now(sc).calls[10] == Now(sc).calls[..12][10] == late;
    sc := HearRefusal(sc, 10);
    var again := Now(sc).calls[13];
    sc := WholeResent(sc, log, 18);
    assert Now(sc).calls[13] == Now(sc).calls[..18][13] == again;
  }

  /** Messages need not overtake each other: here member 1 handles calls 1, 7, 10, 13 and 19, in this order.
      Two refusals are on their way back at once, each makes the leader resend its log, and the follower takes
      both resends. */
  lemma InOrderRepeats(c1: Command, c2: Command, c3: Command) returns (before: Scene, run: seq<Cluster>)
    ensures Fair(before) && IsRun(3, run, before.steps + [Handle(19, true)]) && run[..|before.run|] == before.run
    ensures |run| == 15 && OneVotePerTerm(run[14]) && |run[14].nodes| == 3 && !StepInSync(run[13], Handle(19, true))
    ensures
      before.steps
      == Election + [Client(0, c1, 0, 0, true)] + [Client(0, c2, 0, 1, true)] + [Client(0, c3, 0, 2, true)]
         + [Handle(7, true)] + [Handle(10, true)] + [Return(7)] + [Tick(0)] + [Return(10)] + [Tick(0)]
         + [Handle(13, true)]
    ensures
      var x, y := run[14].nodes[0].log, run[14].nodes[1].log;
      x == [E1(c1), E2(c2), E3(c3)] && y == x + x && !Contiguous(y, 1)
  {
    var x := [E1(c1), E2(c2), E3(c3)];
    before := ResentTwice(c1, c2, c3);
    before := Take(before, 13);
    var s := Now(before);
    assert [] + x == x && s.nodes[1].log == x;
    TakenAgain(s.nodes[1], Whole(x));
    RepeatedDiffers(x, 3);
    assert x[..3] == x;
    run := Finish(before, Handle(19, true));
    assert run[13] == run[..14][13] == s && run[14].nodes[0] == s.nodes[0];
  }

  // ---- The exact condition --------------------------------------------------------------------------------

  lemma SplicedLog(a: Node, q: AppendRequest)
    requires q.entries != [] && q.prevIndex <= |a.log|
    ensures OnEntries(a, q, true).0.log == Spliced(a.log, q.prevIndex, q.prevTerm, q.entries)
  {}

  /** An accepted append keeps the receiver's entries at the positions that their indices name if and only
      if it is in sync: what keeps the cluster's logs indexed is exactly InSyncAppend. */
  lemma IndexedKeptIff(s: Cluster, k: nat)
    requires LogInv(s) && Enabled(s, Handle(k, true)) && s.calls[k].req.Append?
    requires Accepts(s.nodes[s.calls[k].to], s.calls[k].req.append)
    ensures
      Contiguous(OnHandle(s, k, true).nodes[s.calls[k].to].log, 1) <==> StepInSync(s, Handle(k, true))
  {
    var c := s.calls[k];
    var n, q, log := s.nodes[c.to], c.req.append, s.nodes[c.from].log;
    assert LogCallOk(s, c) && ProgressOk(s, c.from) && ProgressOk(s, c.to);
    assert forall j :: 0 <= j < |q.entries| ==> q.entries[j] == log[q.prevIndex + j];
    IndexedIffInSync(n.log, q.prevIndex, q.prevTerm, q.entries);
    SplicedLog(Admitted(n, q), q);
  }

  /** An accepted append keeps all logs matching and indexed if and only if it is in sync. */
  lemma MatchKeptIff(s: Cluster, k: nat, n: nat)
    requires VoteInv(s, n) && LogInv(s) && MatchInv(s) && Enabled(s, Handle(k, true)) && s.calls[k].req.Append?
    requires Accepts(s.nodes[s.calls[k].to], s.calls[k].req.append)
    ensures
      var s' := OnHandle(s, k, true);
      (LogsMatch(s') && forall i :: 0 <= i < |s'.nodes| ==> Contiguous(s'.nodes[i].log, 1))
      <==> StepInSync(s, Handle(k, true))
  {
    var s' := OnHandle(s, k, true);
    IndexedKeptIff(s, k);
    if StepInSync(s, Handle(k, true)) {
      HandleMatches(s, k, true, n);
      HandleLogs(s, k, true);
      forall i | 0 <= i < |s'.nodes| ensures Contiguous(s'.nodes[i].log, 1) { assert ProgressOk(s', i); }
    }
  }
}
