/** What a change of leader can do: runs of three members, with single votes and in-sync appends only. */
module Failovers {
  import opened Messages
  import opened Machine
  import opened CommitRule
  import opened Nodes
  import opened Clusters
  import opened Elections
  import opened Commits
  import opened Scenes

  // ---- A leader whose store differs -------------------------------------------------------------------------

  function A(k: string, v: string): LogEntry { LogEntry(1, 1, Put(k, v)) }
  function B(k: string, v: string): LogEntry { LogEntry(2, 2, Put(k, v)) }

  /** A member that has never led: what it holds, and nothing applied. */
  ghost predicate Waits(n: Node, t: nat, log: seq<LogEntry>) {
    && n.role == Follower && n.term == t && n.log == log && n.commit == n.applied == 0
    && n.matchIndex == map[] && n.nextIndex == map[] && n.tasks == [] && n.st == map[]
  }

  /** Leader 0 of term 2 has A from the leader before it and has logged B. */
  ghost predicate Inherited(n: Node, log: seq<LogEntry>, task: ApplyTask, next: map<nat, nat>) {
    && n.role == Leader && n.term == 2 && n.log == log && n.commit == n.applied == 0
    && n.matchIndex == map[0 := 2] && n.nextIndex == next && n.tasks == [task] && n.st == map[]
  }

  lemma FirstReign(k1: string, v1: string) returns (sc: Scene)
    ensures Fair(sc) && NeverWon(Now(sc), 2) && |Now(sc).calls| == 6
    ensures Waits(Now(sc).nodes[0], 1, [A(k1, v1)]) && Waits(Now(sc).nodes[2], 0, [])
    ensures
      sc.steps == [Timeout(1), Handle(0, true), Return(0)] + [Client(1, Put(k1, v1), 0, 0, true)] + [Handle(3, true)]
  {
    sc := Start();
    sc := Elect(sc, 1, 0);
    sc := Write(sc, 1, Put(k1, v1), 0);
    sc := Take(sc, 3);
  }

  lemma SecondReign(k1: string, v1: string, k2: string, v2: string) returns (sc: Scene)
    ensures Fair(sc) && NeverWon(Now(sc), 2) && |Now(sc).calls| == 12
    ensures Inherited(Now(sc).nodes[0], [A(k1, v1), B(k2, v2)], ApplyTask(2, 0, 0, Put(k2, v2)), map[0 := 3])
    ensures Waits(Now(sc).nodes[2], 2, [])
    ensures Now(sc).calls[11] == Call(0, 2, Append(AppendRequest(2, 0, 1, 1, [B(k2, v2)], 0)), Pending)
    ensures
      sc.steps
      == [Timeout(1), Handle(0, true), Return(0)] + [Client(1, Put(k1, v1), 0, 0, true)] + [Handle(3, true)]
         + [Timeout(0), Handle(8, true), Return(8)] + [Client(0, Put(k2, v2), 0, 0, true)]
  {
    sc := FirstReign(k1, v1);
    sc := Elect(sc, 0, 2);
    sc := Write(sc, 0, Put(k2, v2), 0);
    assert [A(k1, v1)] + [B(k2, v2)] == [A(k1, v1), B(k2, v2)];
    assert map[][0 := 2] == map[0 := 2] && map[][0 := 3] == map[0 := 3];
  }

  /** Member 2 has taken both entries in the resend, call 14, and has said so. */
  lemma CatchesUp(k1: string, v1: string, k2: string, v2: string) returns (sc: Scene)
    ensures Fair(sc) && NeverWon(Now(sc), 2) && |Now(sc).calls| == 18
    ensures
      var s, log := Now(sc), [A(k1, v1), B(k2, v2)];
      && Inherited(s.nodes[0], log, ApplyTask(2, 0, 0, Put(k2, v2)), s.nodes[0].nextIndex)
      && Waits(s.nodes[2], 2, log) && s.calls[14].from == 0 && s.calls[14].to == 2
      && s.calls[14].req == Append(AppendRequest(2, 0, 0, 0, log, 0))
      && s.calls[14].stage == Answered(Appended(AppendResponse(2, 2, true, 2, 1)))
    ensures
      sc.steps
      == [Timeout(1), Handle(0, true), Return(0)] + [Client(1, Put(k1, v1), 0, 0, true)] + [Handle(3, true)]
         + [Timeout(0), Handle(8, true), Return(8)] + [Client(0, Put(k2, v2), 0, 0, true)]
         + [Handle(11, true)] + [Return(11)] + [Tick(0)] + [Handle(14, true)]
  {
    var log := [A(k1, v1), B(k2, v2)];
    sc := SecondReign(k1, v1, k2, v2);
    sc := Refuse(sc, 11);
    sc := HearRefusal(sc, 11);
    var n := Now(sc).nodes[0];
    assert Lags(n, 2) && n.log[0..] == log && ResendRequest(n, 2) == AppendRequest(2, 0, 0, 0, log, 0);
    sc := Beat(sc, 0);
    assert Now(sc).calls[14].to == 2;
    sc := Take(sc, 14);
    assert [] + log == log;
  }

  lemma BothReached()
    ensures IsCommitPoint(map[0 := 2, 2 := 2], 2) && Tracked(map[0 := 2], 2)[2 := 2] == map[0 := 2, 2 := 2]
  {
    var m := map[0 := 2, 2 := 2];
    assert map[0 := 2][2 := 0][2 := 2] == m && m.Keys == {0, 2} && |m| == |m.Keys| && |{0, 2}| == 2;
    assert Reached(m, 2) == {0, 2};
    forall x | x > 2 ensures |Reached(m, x)| < Quorum(|m|) { assert Reached(m, x) == {}; }
  }

  lemma Stores(k1: string, v1: string, k2: string, v2: string)
    ensures
      var ts := [ApplyTask(2, 0, 0, Put(k2, v2))];
      Ready(ts, 2) == 1 && ts[1..] == [] && RunTasks(map[], ts[..1]) == map[k2 := v2]
    ensures
      var log := [A(k1, v1), B(k2, v2)];
      Fold(map[], log) == map[k1 := v1][k2 := v2]
  {
    var ts := [ApplyTask(2, 0, 0, Put(k2, v2))];
    assert ts[..1] == ts && ts[..0] == [] && map[][k2 := v2] == map[k2 := v2];
    var log := [A(k1, v1), B(k2, v2)];
    assert log[..1] == [log[0]] && [log[0]][..0] == [] && map[][k1 := v1] == map[k1 := v1];
    assert Fold(map[], log[..1]) == map[k1 := v1];
  }

  /** The leader commits both entries, has B in its store, and sends a heartbeat in call 23. */
  lemma CommitsBoth(k1: string, v1: string, k2: string, v2: string) returns (sc: Scene)
    ensures Fair(sc) && NeverWon(Now(sc), 2) && |Now(sc).calls| == 24
    ensures
      var s, log := Now(sc), [A(k1, v1), B(k2, v2)];
      && s.nodes[0].role == Leader && s.nodes[0].log == log && s.nodes[0].applied == s.nodes[0].commit == 2
      && s.nodes[0].tasks == [] && s.nodes[0].st == map[k2 := v2]
      && s.nodes[0].matchIndex == map[0 := 2, 2 := 2] && Waits(s.nodes[2], 2, log)
      && s.calls[23] == Call(0, 2, Append(AppendRequest(2, 0, 1, 1, [], 2)), Pending)
    ensures
      sc.steps
      == [Timeout(1), Handle(0, true), Return(0)] + [Client(1, Put(k1, v1), 0, 0, true)] + [Handle(3, true)]
         + [Timeout(0), Handle(8, true), Return(8)] + [Client(0, Put(k2, v2), 0, 0, true)]
         + [Handle(11, true)] + [Return(11)] + [Tick(0)] + [Handle(14, true)] + [Return(14)] + [Tick(0)]
  {
    sc := CatchesUp(k1, v1, k2, v2);
    BothReached();
    Stores(k1, v1, k2, v2);
    sc := HearSuccess(sc, 14, 2);
    sc := Beat(sc, 0);
    assert Now(sc).calls[23].to == 2;
  }

  lemma HeartbeatApplies(n: Node, log: seq<LogEntry>)
    requires Waits(n, 2, log) && |log| == 2
    ensures
      var q := AppendRequest(2, 0, 1, 1, [], 2);
      var m := OnAppendRequest(n, q, true).0;
      m.role == Follower && m.log == log && m.applied == m.commit == 2 && m.st == Fold(map[], log)
  {
    assert log[0..2] == log;
  }

  /** A leader's store can differ from its members' for good.  Node 0 has taken A as a follower, and never
      applies it as a leader; member 2 applies both entries.  They end with the same log, all of it applied by
      both, and with different stores. */
  lemma LeaderDiffers(k1: string, v1: string, k2: string, v2: string) returns (sc: Scene)
    requires k1 != k2
    ensures Fair(sc) && NeverWon(Now(sc), 2)
    ensures
      sc.steps
      == [Timeout(1), Handle(0, true), Return(0)] + [Client(1, Put(k1, v1), 0, 0, true)] + [Handle(3, true)]
         + [Timeout(0), Handle(8, true), Return(8)] + [Client(0, Put(k2, v2), 0, 0, true)]
         + [Handle(11, true)] + [Return(11)] + [Tick(0)] + [Handle(14, true)] + [Return(14)] + [Tick(0)]
         + [Handle(23, true)]
    ensures
      var x, y := Now(sc).nodes[0], Now(sc).nodes[2];
      && x.role == Leader && x.log == y.log == [A(k1, v1), B(k2, v2)] && x.applied == y.applied == 2
      && x.st == map[k2 := v2] && y.st == map[k1 := v1][k2 := v2] && x.st != y.st
  {
    var log := [A(k1, v1), B(k2, v2)];
    sc := CommitsBoth(k1, v1, k2, v2);
    var s := Now(sc);
    HeartbeatApplies(s.nodes[2], log);
    Stores(k1, v1, k2, v2);
    sc := Go(sc, Handle(23, true));
    assert Now(sc).nodes[0] == s.nodes[0];
    assert k1 in map[k1 := v1][k2 := v2] && k1 !in map[k2 := v2];
  }

  // ---- A later leader without a committed entry ----------------------------------------------------------

  function First(c: Command): LogEntry { LogEntry(1, 1, c) }
  function Own2(c: Command): LogEntry { LogEntry(2, 2, c) }
  function Own3(c: Command): LogEntry { LogEntry(2, 3, c) }
  function Kept(c: Command): LogEntry { LogEntry(3, 2, c) }

  /** What matters of a node here. */
  ghost predicate Is(n: Node, role: Role, t: nat, log: seq<LogEntry>, commit: nat, m: MatchMap) {
    n.role == role && n.term == t && n.log == log && n.commit == n.applied == commit && n.matchIndex == m
  }

  lemma AllAt(x: nat)
    ensures IsCommitPoint(map[0 := x, 1 := x], x) && IsCommitPoint(map[0 := x, 1 := x, 2 := x], x)
  {
    var m2, m3 := map[0 := x, 1 := x], map[0 := x, 1 := x, 2 := x];
    assert m2.Keys == {0, 1} && |m2| == |m2.Keys| == 2 && m3.Keys == {0, 1, 2} && |m3| == |m3.Keys| == 3;
    assert Reached(m2, x) == {0, 1} && Reached(m3, x) == {0, 1, 2};
    forall y | y > x ensures Reached(m2, y) == {} && Reached(m3, y) == {} {}
  }

  lemma TwoOfThree()
    ensures IsCommitPoint(map[0 := 2, 1 := 2, 2 := 1], 2)
  {
    var m := map[0 := 2, 1 := 2, 2 := 1];
    assert m.Keys == {0, 1, 2} && |m| == |m.Keys| == 3 && Reached(m, 2) == {0, 1} && |{0, 1}| == 2;
    forall x | x > 2 ensures Reached(m, x) == {} {}
  }

  lemma OneTakes(c1: Command) returns (sc: Scene)
    ensures Fair(sc) && |Now(sc).calls| == 6
    ensures
      var s := Now(sc);
      && Is(s.nodes[0], Leader, 1, [First(c1)], 0, map[0 := 1])
      && Is(s.nodes[1], Follower, 1, [First(c1)], 0, map[]) && Is(s.nodes[2], Follower, 0, [], 0, map[])
      && s.calls[4].from == 0 && s.calls[4].req == Append(AppendRequest(1, 0, 0, 0, [First(c1)], 0))
      && s.calls[4].stage == Answered(Appended(AppendResponse(1, 1, true, 1, 1)))
      && s.calls[5] == Call(0, 2, Append(AppendRequest(1, 0, 0, 0, [First(c1)], 0)), Pending)
  {
    sc := Start();
    sc := Elect(sc, 0, 1);
    sc := Write(sc, 0, c1, 0);
    assert map[][0 := 1] == map[0 := 1];
    sc := Take(sc, 4);
  }

  /** Leader 0 of term 1 has heard from member 1 about its first entry. */
  lemma OneHas(c1: Command) returns (sc: Scene)
    ensures Fair(sc) && |Now(sc).calls| == 6
    ensures
      var s := Now(sc);
      && Is(s.nodes[0], Leader, 1, [First(c1)], 1, map[0 := 1, 1 := 1])
      && Is(s.nodes[1], Follower, 1, [First(c1)], 0, map[]) && Is(s.nodes[2], Follower, 0, [], 0, map[])
      && s.calls[5] == Call(0, 2, Append(AppendRequest(1, 0, 0, 0, [First(c1)], 0)), Pending)
  {
    sc := OneTakes(c1);
    AllAt(1);
    assert map[0 := 1][1 := 0][1 := 1] == map[0 := 1, 1 := 1];
    sc := HearSuccess(sc, 4, 1);
  }

  lemma AllHave(c1: Command) returns (sc: Scene)
    ensures Fair(sc) && |Now(sc).calls| == 6
    ensures
      var s := Now(sc);
      && Is(s.nodes[0], Leader, 1, [First(c1)], 1, map[0 := 1, 1 := 1, 2 := 1])
      && Is(s.nodes[1], Follower, 1, [First(c1)], 0, map[]) && Is(s.nodes[2], Follower, 1, [First(c1)], 0, map[])
  {
    sc := OneHas(c1);
    sc := Take(sc, 5);
    AllAt(1);
    assert map[0 := 1, 1 := 1][2 := 0][2 := 1] == map[0 := 1, 1 := 1, 2 := 1];
    sc := HearSuccess(sc, 5, 1);
  }

  /** Node 2 leads term 2, by node 0's vote, and logs two entries that nobody takes. */
  lemma Apart(c1: Command, c2: Command, c3: Command) returns (sc: Scene)
    ensures Fair(sc) && |Now(sc).calls| == 15
    ensures
      var s := Now(sc);
      && Is(s.nodes[0], Follower, 2, [First(c1)], 1, map[0 := 1, 1 := 1, 2 := 1])
      && Is(s.nodes[1], Follower, 1, [First(c1)], 0, map[])
      && s.nodes[2].role == Leader && s.nodes[2].term == 2 && s.nodes[2].log == [First(c1), Own2(c2), Own3(c3)]
  {
    sc := AllHave(c1);
    sc := Elect(sc, 2, 0);
    sc := Write(sc, 2, c2, 0);
    assert [First(c1)] + [Own2(c2)] == [First(c1), Own2(c2)];
    sc := Write(sc, 2, c3, 0);
    assert [First(c1), Own2(c2)] + [Own3(c3)] == [First(c1), Own2(c2), Own3(c3)];
  }

  /** Node 0 leads term 3, by node 1's vote, and member 1 has taken its second entry. */
  lemma Again(c1: Command, c2: Command, c3: Command, c4: Command) returns (sc: Scene)
    ensures Fair(sc) && |Now(sc).calls| == 21
    ensures
      var s := Now(sc);
      && Is(s.nodes[0], Leader, 3, [First(c1), Kept(c4)], 1, map[0 := 2, 1 := 1, 2 := 1])
      && s.nodes[1].term == 3 && s.nodes[1].log == [First(c1), Kept(c4)]
      && s.nodes[2].role == Leader && s.nodes[2].term == 2 && s.nodes[2].log == [First(c1), Own2(c2), Own3(c3)]
      && s.calls[17] == Call(0, 2, Vote(VoteRequest(3, 0, 1, 1)), Pending)
      && s.calls[19].from == 0 && s.calls[19].req == Append(AppendRequest(3, 0, 1, 1, [Kept(c4)], 1))
      && s.calls[19].stage == Answered(Appended(AppendResponse(1, 3, true, 2, 1)))
  {
    sc := Apart(c1, c2, c3);
    sc := Elect(sc, 0, 1);
    sc := Write(sc, 0, c4, 0);
    assert [First(c1)] + [Kept(c4)] == [First(c1), Kept(c4)];
    assert map[0 := 1, 1 := 1, 2 := 1][0 := 2] == map[0 := 2, 1 := 1, 2 := 1];
    sc := TakeAndCommit(sc, 19);
  }

  /** Step j is a commit of both entries by leader 0, who tracks everybody; two of three members hold them. */
  lemma CommitsSecond(c1: Command, c2: Command, c3: Command, c4: Command) returns (sc: Scene, j: nat)
    ensures Fair(sc) && |Now(sc).calls| == 21 && j + 1 == |sc.steps| && MovesCommit(3, sc.run, sc.steps, j, 0)
    ensures
      var s := Now(sc);
      && Is(s.nodes[0], Leader, 3, [First(c1), Kept(c4)], 2, map[0 := 2, 1 := 2, 2 := 1])
      && s.nodes[1].term == 3 && s.nodes[1].log == [First(c1), Kept(c4)]
      && s.nodes[2].role == Leader && s.nodes[2].term == 2 && s.nodes[2].log == [First(c1), Own2(c2), Own3(c3)]
      && s.calls[17] == Call(0, 2, Vote(VoteRequest(3, 0, 1, 1)), Pending)
  {
    var before := Again(c1, c2, c3, c4);
    j := |before.steps|;
    TwoOfThree();
    assert map[0 := 2, 1 := 1, 2 := 1][1 := 2] == map[0 := 2, 1 := 2, 2 := 1];
    sc := HearSuccess(before, 19, 2);
    assert StepAt(sc.run, sc.steps, j) && sc.run[j] == Now(before) && sc.run[j + 1] == Now(sc);
  }

  lemma StepKeepsRequests(s: Cluster, t: Step)
    requires Enabled(s, t)
    ensures |s.calls| <= |Next(s, t).calls|
    ensures forall k :: 0 <= k < |s.calls| ==>
      Next(s, t).calls[k].from == s.calls[k].from && Next(s, t).calls[k].req == s.calls[k].req
  {}

  lemma {:induction false} RequestsStay(n: nat, run: seq<Cluster>, steps: seq<Step>, i: nat, j: nat)
    requires IsRun(n, run, steps) && i <= j < |run|
    ensures |run[i].calls| <= |run[j].calls|
    ensures forall k :: 0 <= k < |run[i].calls| ==>
      run[j].calls[k].from == run[i].calls[k].from && run[j].calls[k].req == run[i].calls[k].req
    decreases j - i
  {
    if i == j {
    } else {
      RequestsStay(n, run, steps, i, j - 1);
      assert StepAt(run, steps, j - 1);
      StepKeepsRequests(run[j - 1], steps[j - 1]);
    }
  }

  /** Candidates ask for votes in their own terms only, so a later term has none yet. */
  lemma VotesAreLater(sc: Scene, later: Scene, L: nat, t: nat)
    requires Fair(sc) && Fair(later) && sc.run <= later.run && L < 3 && Now(sc).nodes[L].term < t
    ensures VotedLater(Now(sc), Now(later), L, t)
  {
    VoteInvHolds(3, sc.run, sc.steps, |sc.steps|);
    RequestsStay(3, later.run, later.steps, |sc.steps|, |later.steps|);
    var calls := Now(sc).calls;
    forall k | 0 <= k < |calls| && calls[k].from == L && calls[k].req.Vote? ensures calls[k].req.vote.term < t {
      assert CallOk(Now(sc), calls[k]);
    }
    forall k: nat, v: nat | GrantAt(Now(later), k, v, L, t) ensures GrantedSince(Now(sc), Now(later), k) {}
  }

  lemma Elected2(sc: Scene, c1: Command, c2: Command, c3: Command, c4: Command) returns (later: Scene)
    requires Fair(sc) && |Now(sc).calls| == 21
    requires
      var s := Now(sc);
      && s.nodes[1].term == 3 && s.nodes[1].log == [First(c1), Kept(c4)]
      && s.nodes[2].role == Leader && s.nodes[2].term == 2 && s.nodes[2].log == [First(c1), Own2(c2), Own3(c3)]
      && s.calls[17] == Call(0, 2, Vote(VoteRequest(3, 0, 1, 1)), Pending)
    ensures Fair(later) && sc.run <= later.run
    ensures
      later.steps == sc.steps + [Handle(17, true)] + [Timeout(2), Handle(22, true), Return(22)]
    ensures
      var n := Now(later).nodes[2];
      n.role == Leader && n.term == 4 && n.log == [First(c1), Own2(c2), Own3(c3)]
  {
    later := Go(sc, Handle(17, true));
    assert Now(later).nodes[1] == Now(sc).nodes[1];
    later := Elect(later, 2, 1);
  }

  /** Committed entries can be missing from a later leader.  Node 0, who tracks everybody, commits its second
      entry in step j with member 1; then node 2, whose log is longer with entries of an earlier term, wins
      member 1's vote.  All its votes are cast after the commit, and it lacks the committed entry. */
  lemma LeaderLacksCommit(c1: Command, c2: Command, c3: Command, c4: Command) returns (sc: Scene, j: nat)
    ensures Fair(sc) && MovesCommit(3, sc.run, sc.steps, j, 0) && j + 1 < |sc.run|
    ensures TracksAll(sc.run[j + 1].nodes[0].matchIndex, 3) && VotedLater(sc.run[j + 1], Now(sc), 2, 4)
    ensures
      var committed, later := sc.run[j + 1].nodes[0], Now(sc).nodes[2];
      && committed.role == Leader && committed.commit == 2 && committed.log == [First(c1), Kept(c4)]
      && later.role == Leader && later.term == 4 && later.log == [First(c1), Own2(c2), Own3(c3)]
      && later.log[..2] != committed.log[..2]
  {
    var mid;
    mid, j := CommitsSecond(c1, c2, c3, c4);
    sc := Elected2(mid, c1, c2, c3, c4);
    VotesAreLater(mid, sc, 2, 4);
    assert sc.run[j + 1] == mid.run[j + 1] && sc.run[j] == mid.run[j] && StepAt(mid.run, mid.steps, j);
    assert StepAt(sc.run, sc.steps, j) && sc.steps[j] == mid.steps[j];
    assert map[0 := 2, 1 := 2, 2 := 1].Keys == {0, 1, 2} && Members(3) == {0, 1, 2};
    assert [First(c1), Own2(c2), Own3(c3)][..2][1] != [First(c1), Kept(c4)][..2][1];
  }
}
