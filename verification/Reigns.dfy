/** A leader's reign, as its handlers run it, is the queue-driven run of module ApplyPaths. */
module Reigns {
  import opened Messages
  import opened Machine
  import opened CommitRule
  import opened Logs
  import opened Nodes
  import opened NodeRuns

  /** The node leads before and after, and takes no other leader's entries in its own term. */
  ghost predicate LeadsOn(n: Node, e: Event) {
    && Can(n, e) && n.role == Leader && After(n, e).role == Leader && !e.Restart?
    && (e.AppendAsked? ==> e.append.term < n.term)
  }

  /** The response makes the leader pick a commit index and drain its queue. */
  predicate DrivesCommit(n: Node, r: AppendResponse) {
    && n.role == Leader && r.term == n.term && r.success
    && Tracked(n.matchIndex, r.memberId)[r.memberId] < r.lastLogIndex
  }

  /** What an event is to the queue: a request, a commit, or nothing. */
  ghost function QueueEvent(n: Node, e: Event): seq<ApplyPaths.ReignEvent>
    requires Can(n, e)
  {
    match e
    case KvAsked(c, session, requestId, ok) => if ok then [ApplyPaths.Request(n.term, session, requestId, c)] else []
    case AppendAnswered(r) => if DrivesCommit(n, r) then [ApplyPaths.CommitTo(After(n, e).commit)] else []
    case _ => []
  }

  /** The node's log, queue and store are those of the reign. */
  predicate Mirrors(n: Node, r: ApplyPaths.Reign) {
    n.log == r.log && n.tasks == r.tasks && n.st == r.st
  }

  lemma RecordIsCommit(n: Node, resp: AppendResponse, r: ApplyPaths.Reign)
    requires Mirrors(n, r) && DrivesCommit(n, resp)
    ensures
      var m := OnAppendResponse(n, resp);
      Mirrors(m, ApplyPaths.Reigned(r, ApplyPaths.CommitTo(m.commit)))
  {}

  lemma QuietEvent(n: Node, e: Event)
    requires LeadsOn(n, e) && QueueEvent(n, e) == []
    ensures After(n, e).log == n.log && After(n, e).tasks == n.tasks && After(n, e).st == n.st
  {}

  lemma StepIsReign(n: Node, e: Event, r: ApplyPaths.Reign)
    requires LeadsOn(n, e) && Mirrors(n, r)
    ensures Mirrors(After(n, e), if QueueEvent(n, e) == [] then r else ApplyPaths.Reigned(r, QueueEvent(n, e)[0]))
  {
    if QueueEvent(n, e) == [] {
      QuietEvent(n, e);
    } else if e.AppendAnswered? {
      RecordIsCommit(n, e.response, r);
    }
  }

  lemma ReignedSnoc(log: seq<LogEntry>, left: seq<ApplyTask>, st: Store,
                    evs: seq<ApplyPaths.ReignEvent>, ev: ApplyPaths.ReignEvent)
    ensures
      ApplyPaths.ReignedAll(log, left, st, evs + [ev])
      == ApplyPaths.Reigned(ApplyPaths.ReignedAll(log, left, st, evs), ev)
  {
    assert (evs + [ev])[..|evs|] == evs;
  }

  /** A history in which the node leads throughout is a reign, on the log, the queue and the store that
      it starts with. */
  lemma {:induction false} RunIsReign(run: seq<Node>, es: seq<Event>, j: nat) returns (evs: seq<ApplyPaths.ReignEvent>)
    requires IsHistory(run, es) && j < |run|
    requires forall l :: 0 <= l < |es| ==> LeadsOn(run[l], es[l])
    ensures Mirrors(run[j], ApplyPaths.ReignedAll(run[0].log, run[0].tasks, run[0].st, evs))
  {
    evs := [];
    if j == 0 {
    } else {
      var before := RunIsReign(run, es, j - 1);
      assert EventAt(run, es, j - 1);
      StepIsReign(run[j - 1], es[j - 1], ApplyPaths.ReignedAll(run[0].log, run[0].tasks, run[0].st, before));
      var ev := QueueEvent(run[j - 1], es[j - 1]);
      evs := before;
      if ev != [] {
        ReignedSnoc(run[0].log, run[0].tasks, run[0].st, before, ev[0]);
        evs := before + [ev[0]];
      }
    }
  }

  /** Whatever a leader is sent during its reign, and whatever its earlier reigns left in its queue, its
      store is known, and it is the fold of the drained log under an exact condition on the leftovers. */
  lemma LeaderStore(run: seq<Node>, es: seq<Event>, s0: Store, j: nat)
    requires IsHistory(run, es) && j < |run|
    requires forall l :: 0 <= l < |es| ==> LeadsOn(run[l], es[l])
    ensures ApplyPaths.StoreIs(run[j].log, run[j].tasks, run[j].st, run[0].log, run[0].tasks, run[0].st, s0)
  {
    var evs := RunIsReign(run, es, j);
    var log0, left, st0 := run[0].log, run[0].tasks, run[0].st;
    ApplyPaths.ReignStaysOk(log0, left, st0, evs);
    ApplyPaths.ReignStore(ApplyPaths.ReignedAll(log0, left, st0, evs), log0, left, st0, s0);
  }

  // ---- A queue that outlives its reign --------------------------------------------------------------

  lemma AppendKeepsQueue(n: Node, q: AppendRequest, writeOk: bool)
    ensures OnAppendRequest(n, q, writeOk).0.tasks == n.tasks
  {
    if q.term >= n.term {
      var a := Admitted(n, q);
      assert (if q.entries == [] then OnHeartbeat(a, q) else OnEntries(a, q, writeOk)).0.tasks == a.tasks;
    }
  }

  lemma VoteKeepsQueue(n: Node, r: VoteResponse, q: VoteRequest)
    ensures OnVoteResponse(n, r).tasks == n.tasks && OnVoteRequest(n, q).0.tasks == n.tasks
  {}

  lemma ResponseKeepsQueue(n: Node, r: AppendResponse)
    ensures OnHeartbeatResponse(n, r).tasks == n.tasks
    ensures n.role != Leader || OnAppendResponse(n, r).role != Leader ==> OnAppendResponse(n, r).tasks == n.tasks
  {}

  /** A node that does not lead, or stops leading, leaves its queue alone. */
  lemma QueueStays(n: Node, e: Event)
    requires Can(n, e) && !e.Restart? && (n.role != Leader || After(n, e).role != Leader)
    ensures After(n, e).tasks == n.tasks
  {
    match e
    case AppendAsked(q, ok) => AppendKeepsQueue(n, q, ok);
    case VoteAsked(q) => VoteKeepsQueue(n, VoteResponse(0, 0, false), q);
    case VoteAnswered(r) => VoteKeepsQueue(n, r, VoteRequest(0, 0, 0, 0));
    case AppendAnswered(r) => ResponseKeepsQueue(n, r);
    case HeartbeatAnswered(r) => ResponseKeepsQueue(n, r);
    case _ =>
  }

  /** Node 0 of three leads, logs Put(k, v1), follows another leader who overwrites k and commits, and
      leads again. */
  function Comeback(k: string, v1: string, v2: string): seq<Event> {
    [Timeout, VoteAnswered(VoteResponse(1, 1, true)),
     KvAsked(Put(k, v1), 0, 0, true),
     AppendAsked(AppendRequest(2, 1, 1, 1, [LogEntry(2, 2, Put(k, v2))], 2), true),
     Timeout, VoteAnswered(VoteResponse(1, 3, true)),
     AppendAnswered(AppendResponse(1, 3, true, 2, 1))]
  }

  lemma Play(run: seq<Node>, es: seq<Event>, e: Event) returns (longer: seq<Node>)
    requires IsHistory(run, es) && Can(run[|es|], e)
    ensures IsHistory(longer, es + [e]) && |longer| == |run| + 1
    ensures forall l :: 0 <= l < |run| ==> longer[l] == run[l]
    ensures longer[|es| + 1] == After(run[|es|], e)
  {
    longer := run + [After(run[|es|], e)];
    forall i: nat | i < |es + [e]| ensures EventAt(longer, es + [e], i) {
      if i < |es| { assert EventAt(run, es, i); }
    }
  }

  lemma FirstReign(k: string, v1: string, v2: string) returns (run: seq<Node>)
    ensures IsHistory(run, Comeback(k, v1, v2)[..3]) && run[0] == Started(0, 3, map[], map[])
    ensures LogDurable(run[0]) && forall l :: 0 <= l < 3 ==> !Comeback(k, v1, v2)[l].AppendAsked?
    ensures
      var n := run[3];
      && n.role == Leader && n.id == 0 && n.peers == 3 && n.term == 1
      && n.log == [LogEntry(1, 1, Put(k, v1))] && n.tasks == [ApplyTask(1, 0, 0, Put(k, v1))]
      && n.commit == n.applied == 0 && n.st == map[] && n.matchIndex == map[0 := 1]
  {
    var es := Comeback(k, v1, v2);
    var first := Started(0, 3, map[], map[]);
    FirstStartDurable(0, 3, map[]);
    run := Play([first], [], es[0]);
    run := Play(run, [es[0]], es[1]);
    run := Play(run, [es[0]] + [es[1]], es[2]);
    assert [] + [es[0]] == [es[0]] && [es[0]] + [es[1]] + [es[2]] == es[..3];
    var n := run[2];
    assert n.role == Leader && n.log == [] && n.matchIndex == map[];
    assert map[][0 := 1] == map[0 := 1];
  }

  lemma FoldOfBoth(k: string, v1: string, v2: string)
    ensures Fold(map[], [LogEntry(1, 1, Put(k, v1)), LogEntry(2, 2, Put(k, v2))]) == map[k := v2]
  {
    var log := [LogEntry(1, 1, Put(k, v1)), LogEntry(2, 2, Put(k, v2))];
    assert log[..1] == [log[0]] && [log[0]][..0] == [];
    assert Fold(map[], log[..1]) == map[k := v1];
    assert map[k := v1][k := v2] == map[k := v2];
  }

  lemma Rerun(n: Node, k: string, v1: string, v2: string)
    requires n.role == Leader && n.term == 3 && n.matchIndex == map[0 := 1] && |n.log| == 2
    requires n.tasks == [ApplyTask(1, 0, 0, Put(k, v1))] && n.st == map[k := v2]
    ensures
      var m := OnAppendResponse(n, AppendResponse(1, 3, true, 2, 1));
      m.role == Leader && m.log == n.log && m.applied == m.commit == 2 && m.tasks == [] && m.st == map[k := v1]
  {
    var m := Tracked(n.matchIndex, 1)[1 := 2];
    assert m.Keys == {1, 0};
    OneOfTwoSuffices(m, 1, 0);
    var ts := n.tasks;
    assert Ready(ts, 2) == 1 && ts[..1] == ts && ts[..0] == [] && ts[1..] == [];
    assert RunTasks(n.st, ts) == map[k := v2][k := v1] == map[k := v1];
  }

  lemma ComesBack(n: Node)
    requires n.role == Follower && n.term == 2 && n.peers == 3
    ensures
      var m := OnVoteResponse(Campaigning(n), VoteResponse(1, 3, true));
      && m.role == Leader && m.term == 3 && m.log == n.log && m.tasks == n.tasks && m.st == n.st
      && m.applied == n.applied && m.matchIndex == n.matchIndex
  {}

  lemma Overtaken(n: Node, k: string, v1: string, v2: string)
    requires n.term == 1 && n.commit == n.applied == 0 && n.st == map[] && n.log == [LogEntry(1, 1, Put(k, v1))]
    ensures
      var q := AppendRequest(2, 1, 1, 1, [LogEntry(2, 2, Put(k, v2))], 2);
      var m := OnAppendRequest(n, q, true).0;
      && InSyncEvent(n, AppendAsked(q, true))
      && m.log == [LogEntry(1, 1, Put(k, v1)), LogEntry(2, 2, Put(k, v2))]
      && m.role == Follower && m.term == 2 && m.applied == 2 && m.st == map[k := v2]
      && m.id == n.id && m.peers == n.peers && m.tasks == n.tasks && m.matchIndex == n.matchIndex
  {
    var log := [LogEntry(1, 1, Put(k, v1)), LogEntry(2, 2, Put(k, v2))];
    assert n.log + [LogEntry(2, 2, Put(k, v2))] == log;
    assert log[0..2] == log;
    FoldOfBoth(k, v1, v2);
  }

  lemma OvertakenReign(k: string, v1: string, v2: string) returns (run: seq<Node>)
    ensures IsHistory(run, Comeback(k, v1, v2)[..4]) && run[0] == Started(0, 3, map[], map[])
    ensures forall l :: 0 <= l < 4 ==> InSyncEvent(run[l], Comeback(k, v1, v2)[l])
    ensures
      var n := run[4];
      && n.role == Follower && n.term == 2 && n.peers == 3 && n.matchIndex == map[0 := 1] && n.applied == 2
      && n.log == [LogEntry(1, 1, Put(k, v1)), LogEntry(2, 2, Put(k, v2))]
      && n.tasks == [ApplyTask(1, 0, 0, Put(k, v1))] && n.st == map[k := v2]
  {
    var es := Comeback(k, v1, v2);
    run := FirstReign(k, v1, v2);
    Overtaken(run[3], k, v1, v2);
    run := Play(run, es[..3], es[3]);
    assert es[..3] + [es[3]] == es[..4];
  }

  lemma SecondReign(k: string, v1: string, v2: string) returns (run: seq<Node>)
    ensures IsHistory(run, Comeback(k, v1, v2)[..6]) && run[0] == Started(0, 3, map[], map[])
    ensures forall l :: 0 <= l < 6 ==> InSyncEvent(run[l], Comeback(k, v1, v2)[l])
    ensures
      var n := run[6];
      && n.role == Leader && n.term == 3 && n.matchIndex == map[0 := 1] && n.applied == 2
      && n.log == [LogEntry(1, 1, Put(k, v1)), LogEntry(2, 2, Put(k, v2))]
      && n.tasks == [ApplyTask(1, 0, 0, Put(k, v1))] && n.st == map[k := v2]
  {
    var es := Comeback(k, v1, v2);
    run := OvertakenReign(k, v1, v2);
    ComesBack(run[4]);
    run := Play(run, es[..4], es[4]);
    run := Play(run, es[..4] + [es[4]], es[5]);
    assert es[..4] + [es[4]] + [es[5]] == es[..6];
  }

  /** The queue is not cleared when a leader steps down.  In this history every append is in sync, yet the
      leader that comes back runs a command that it has already applied as a follower: everything is
      applied, and the store is not the fold of the log. */
  lemma RerunsOldCommand(k: string, v1: string, v2: string) returns (run: seq<Node>)
    requires v1 != v2
    ensures IsHistory(run, Comeback(k, v1, v2)) && run[0] == Started(0, 3, map[], map[])
    ensures forall l :: 0 <= l < |Comeback(k, v1, v2)| ==> InSyncEvent(run[l], Comeback(k, v1, v2)[l])
    ensures
      var n := run[|Comeback(k, v1, v2)|];
      && n.role == Leader && n.applied == n.commit == |n.log| == 2 && n.tasks == []
      && n.st == map[k := v1] && Fold(map[], n.log) == map[k := v2] && n.st != Fold(map[], n.log)
  {
    var es := Comeback(k, v1, v2);
    run := SecondReign(k, v1, v2);
    var n := run[6];
    Rerun(n, k, v1, v2);
    FoldOfBoth(k, v1, v2);
    run := Play(run, es[..6], es[6]);
    assert es[..6] + [es[6]] == es;
    assert map[k := v1][k] != map[k := v2][k];
  }

  // ---- A reign that begins with entries to apply -----------------------------------------------------

  /** Node 0 of three takes Put(k1, v1) from another leader, leads, logs Put(k2, v2), and commits both. */
  function Failover(k1: string, v1: string, k2: string, v2: string): seq<Event> {
    [AppendAsked(AppendRequest(1, 1, 0, 0, [LogEntry(1, 1, Put(k1, v1))], 0), true),
     Timeout, VoteAnswered(VoteResponse(1, 2, true)),
     KvAsked(Put(k2, v2), 0, 0, true), AppendAnswered(AppendResponse(1, 2, true, 2, 1))]
  }

  lemma Inherits(k1: string, v1: string, k2: string, v2: string) returns (run: seq<Node>)
    ensures IsHistory(run, Failover(k1, v1, k2, v2)[..2]) && run[0] == Started(0, 3, map[], map[])
    ensures forall l :: 0 <= l < 2 ==> InSyncEvent(run[l], Failover(k1, v1, k2, v2)[l])
    ensures
      var n := run[2];
      && n.role == Candidate && n.id == 0 && n.peers == 3 && n.term == 2 && n.votes == 1
      && n.log == [LogEntry(1, 1, Put(k1, v1))] && n.tasks == [] && n.st == map[] && n.matchIndex == map[]
  {
    var es, e := Failover(k1, v1, k2, v2), LogEntry(1, 1, Put(k1, v1));
    var first := Started(0, 3, map[], map[]);
    InSyncExtends(first.log, 0, 0, [e]);
    assert first.log + [e] == [e];
    run := Play([first], [], es[0]);
    run := Play(run, [es[0]], es[1]);
    assert [] + [es[0]] == [es[0]] && [es[0]] + [es[1]] == es[..2];
  }

  lemma TakesOver(k1: string, v1: string, k2: string, v2: string) returns (run: seq<Node>)
    ensures IsHistory(run, Failover(k1, v1, k2, v2)[..4]) && run[0] == Started(0, 3, map[], map[])
    ensures forall l :: 0 <= l < 4 ==> InSyncEvent(run[l], Failover(k1, v1, k2, v2)[l])
    ensures
      var n := run[4];
      && n.role == Leader && n.term == 2 && n.matchIndex == map[0 := 2] && n.st == map[]
      && n.log == [LogEntry(1, 1, Put(k1, v1)), LogEntry(2, 2, Put(k2, v2))]
      && n.tasks == [ApplyTask(2, 0, 0, Put(k2, v2))]
  {
    var es := Failover(k1, v1, k2, v2);
    run := Inherits(k1, v1, k2, v2);
    run := Play(run, es[..2], es[2]);
    var n := run[3];
    assert n.log + [LogEntry(2, 2, Put(k2, v2))] == [LogEntry(1, 1, Put(k1, v1)), LogEntry(2, 2, Put(k2, v2))];
    assert map[][0 := 2] == map[0 := 2];
    run := Play(run, es[..2] + [es[2]], es[3]);
    assert es[..2] + [es[2]] + [es[3]] == es[..4];
  }

  lemma CommitsInherited(n: Node, k2: string, v2: string)
    requires n.role == Leader && n.term == 2 && n.matchIndex == map[0 := 2] && n.st == map[]
    requires n.tasks == [ApplyTask(2, 0, 0, Put(k2, v2))]
    ensures
      var m := OnAppendResponse(n, AppendResponse(1, 2, true, 2, 1));
      && m.role == Leader && m.log == n.log && m.applied == m.commit == 2 && m.tasks == []
      && m.st == map[k2 := v2]
  {
    var m := Tracked(n.matchIndex, 1)[1 := 2];
    assert m.Keys == {0, 1} && |m| == |m.Keys| && Reached(m, 2) == {0, 1} && |{0, 1}| == 2;
    forall x | x > 2 ensures |Reached(m, x)| < Quorum(|m|) { assert Reached(m, x) == {}; }
    CommitPointUnique(m, 2, CommitPoint(m));
    var ts := n.tasks;
    assert Ready(ts, 2) == 1 && ts[..1] == ts && ts[..0] == [] && ts[1..] == [];
    assert RunTasks(n.st, ts) == map[][k2 := v2] == map[k2 := v2];
  }

  /** A leader drains only its own queue.  In this history every append is in sync and the node leads once,
      with nothing queued by an earlier reign, yet what it had not applied as a follower it never applies:
      everything is committed and counted as applied, and the first write is lost to every later get. */
  lemma FailoverLoses(k1: string, v1: string, k2: string, v2: string) returns (run: seq<Node>)
    requires k1 != k2
    ensures IsHistory(run, Failover(k1, v1, k2, v2)) && run[0] == Started(0, 3, map[], map[])
    ensures forall l :: 0 <= l < 5 ==> InSyncEvent(run[l], Failover(k1, v1, k2, v2)[l])
    ensures
      var n := run[5];
      && n.role == Leader && n.applied == n.commit == |n.log| == 2 && n.tasks == [] && n.st == map[k2 := v2]
      && AnswerOf(n.st, Get(k1)) == GetFailed(k1) && AnswerOf(Fold(map[], n.log), Get(k1)) == GetFound(k1, v1)
  {
    var es := Failover(k1, v1, k2, v2);
    run := TakesOver(k1, v1, k2, v2);
    var n := run[4];
    CommitsInherited(n, k2, v2);
    run := Play(run, es[..4], es[4]);
    assert es[..4] + [es[4]] == es;
    var log := n.log;
    assert log[..1] == [log[0]] && [log[0]][..0] == [];
    assert Fold(map[], log[..1]) == map[k1 := v1];
    assert Fold(map[], log) == map[k1 := v1][k2 := v2];
  }
}
