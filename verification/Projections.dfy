/** What a cluster run is to one of its members: a history of that node.  So what holds of a node's histories
    holds in the cluster. */
module Projections {
  import opened Wrappers
  import opened Logs
  import opened Machine
  import opened Nodes
  import opened Clusters
  import opened Elections
  import opened Replication
  import opened Matching
  import opened Commits
  import ApplyPaths
  import Redirects
  import Reigns

  type Event = NodeRuns.Event

  /** Member i's part in a step of the cluster. */
  ghost function Part(s: Cluster, t: Step, i: nat): Option<Event>
    requires Enabled(s, t)
  {
    match t
    case Timeout(x) => if x == i then Some(NodeRuns.Timeout) else None
    case Tick(x) => if x == i then Some(NodeRuns.Tick) else None
    case Client(x, c, session, id, ok) => if x == i then Some(NodeRuns.KvAsked(c, session, id, ok)) else None
    case Handle(k, ok) =>
      if s.calls[k].to != i then None
      else if s.calls[k].req.Vote? then Some(NodeRuns.VoteAsked(s.calls[k].req.vote))
      else Some(NodeRuns.AppendAsked(s.calls[k].req.append, ok))
    case Return(k) =>
      var c := s.calls[k];
      if c.from != i then None
      else if c.req.Vote? then Some(NodeRuns.VoteAnswered(c.stage.resp.vote))
      else if c.req.append.entries == [] then Some(NodeRuns.HeartbeatAnswered(c.stage.resp.append))
      else Some(NodeRuns.AppendAnswered(c.stage.resp.append))
  }

  lemma PartIsEvent(s: Cluster, t: Step, i: nat)
    requires Enabled(s, t) && i < |s.nodes|
    ensures
      var e := Part(s, t, i);
      && |Next(s, t).nodes| == |s.nodes|
      && (e.Some? ==> NodeRuns.Can(s.nodes[i], e.value) && !e.value.Restart?)
      && Next(s, t).nodes[i] == if e.Some? then NodeRuns.After(s.nodes[i], e.value) else s.nodes[i]
  {}

  lemma PartInSync(s: Cluster, t: Step, i: nat)
    requires LogInv(s) && Enabled(s, t) && StepInSync(s, t) && i < |s.nodes| && Part(s, t, i).Some?
    ensures NodeRuns.InSyncEvent(s.nodes[i], Part(s, t, i).value)
  {
    if t.Handle? && s.calls[t.k].req.Append? {
      var c := s.calls[t.k];
      assert LogCallOk(s, c) && ProgressOk(s, c.from);
      var q, log := c.req.append, s.nodes[c.from].log;
      assert forall j :: 0 <= j < |q.entries| ==> q.entries[j] == log[q.prevIndex + j];
    }
  }

  /** A leader hears nothing from another leader of its own term: terms have one winner each. */
  lemma PartLeadsOn(s: Cluster, t: Step, i: nat, n: nat)
    requires VoteInv(s, n) && Redirects.LeadersKnown(s) && OneWinnerPerTerm(s) && Enabled(s, t) && i < n
    requires |Next(s, t).nodes| == n && s.nodes[i].role == Leader && Next(s, t).nodes[i].role == Leader
    requires Part(s, t, i).Some?
    ensures Reigns.LeadsOn(s.nodes[i], Part(s, t, i).value)
  {
    PartIsEvent(s, t, i);
    if t.Handle? && s.calls[t.k].req.Append? {
      var c := s.calls[t.k];
      assert CallOk(s, c) && Redirects.FromWinner(s, c) && RoleOk(s, i);
      HandledEffect(s.nodes[i], c.req, t.writeOk);
      assert c.req.append.term != s.nodes[i].term;
    }
  }

  // ---- Runs ---------------------------------------------------------------------------------------------------

  ghost predicate LeadsThroughout(run: seq<Cluster>, i: nat, l: nat, j: nat) {
    forall m :: l <= m <= j && m < |run| ==> i < |run[m].nodes| && run[m].nodes[i].role == Leader
  }

  /** A history of member i from point l of the run to point j. */
  ghost predicate IsPart(run: seq<Cluster>, i: nat, l: nat, j: nat, h: seq<Node>, es: seq<Event>)
    requires l <= j < |run| && i < |run[l].nodes| && i < |run[j].nodes|
  {
    && NodeRuns.IsHistory(h, es) && h[0] == run[l].nodes[i] && h[|es|] == run[j].nodes[i]
    && (forall x :: 0 <= x < |es| ==> NodeRuns.InSyncEvent(h[x], es[x]))
    && (LeadsThroughout(run, i, l, j) ==> forall x :: 0 <= x < |es| ==> Reigns.LeadsOn(h[x], es[x]))
  }

  lemma PartStep(n: nat, run: seq<Cluster>, steps: seq<Step>, i: nat, l: nat, j: nat, h: seq<Node>, es: seq<Event>)
    returns (h': seq<Node>, es': seq<Event>)
    requires IsRun(n, run, steps) && InSyncAppend(run, steps) && OneVotePerTerm(run[|run| - 1])
    requires i < n && l <= j < |steps| && |run[l].nodes| == |run[j].nodes| == |run[j + 1].nodes| == n
    requires IsPart(run, i, l, j, h, es)
    ensures IsPart(run, i, l, j + 1, h', es')
  {
    assert StepAt(run, steps, j) && StepInSync(run[j], steps[j]);
    var e := Part(run[j], steps[j], i);
    PartIsEvent(run[j], steps[j], i);
    assert LeadsThroughout(run, i, l, j + 1) ==> LeadsThroughout(run, i, l, j);
    h', es' := h, es;
    if e.Some? {
      LogInvHolds(n, run, steps, j);
      PartInSync(run[j], steps[j], i);
      h' := Reigns.Play(h, es, e.value);
      es' := es + [e.value];
      if LeadsThroughout(run, i, l, j + 1) {
        Redirects.LeadersKnownHolds(n, run, steps, j);
        WinnersBefore(n, run, steps, j);
        PartLeadsOn(run[j], steps[j], i, n);
      }
    }
  }

  /** Every stretch of an in-sync run with single votes is, for each member, an in-sync history of the node;
      and where the member leads throughout, it is a reign. */
  lemma {:induction false} MemberHistory(n: nat, run: seq<Cluster>, steps: seq<Step>, i: nat, l: nat, j: nat)
    returns (h: seq<Node>, es: seq<Event>)
    requires IsRun(n, run, steps) && InSyncAppend(run, steps) && OneVotePerTerm(run[|run| - 1])
    requires i < n && l <= j < |run|
    ensures |run[l].nodes| == |run[j].nodes| == n && IsPart(run, i, l, j, h, es)
    decreases j - l
  {
    RunSize(n, run, steps, l);
    RunSize(n, run, steps, j);
    if l == j {
      h, es := [run[l].nodes[i]], [];
    } else {
      h, es := MemberHistory(n, run, steps, i, l, j - 1);
      h, es := PartStep(n, run, steps, i, l, j - 1, h, es);
    }
  }

  // ---- A leader's store ---------------------------------------------------------------------------------------

  /** The store of a member that leads from point l to point j of a run is what ApplyPaths.StoreIs says of a
      reign that begins with the member's log, queue and store at l. */
  lemma LeaderStoreInCluster(n: nat, run: seq<Cluster>, steps: seq<Step>, i: nat, l: nat, j: nat, s0: Store)
    requires IsRun(n, run, steps) && InSyncAppend(run, steps) && OneVotePerTerm(run[|run| - 1])
    requires i < n && l <= j < |run| && LeadsThroughout(run, i, l, j)
    ensures |run[l].nodes| == |run[j].nodes| == n
    ensures
      var x, y := run[l].nodes[i], run[j].nodes[i];
      ApplyPaths.StoreIs(y.log, y.tasks, y.st, x.log, x.tasks, x.st, s0)
  {
    var h, es := MemberHistory(n, run, steps, i, l, j);
    Reigns.LeaderStore(h, es, s0, |es|);
  }

  /** A member that has not led has nothing queued. */
  lemma {:induction false} NothingQueued(n: nat, run: seq<Cluster>, steps: seq<Step>, i: nat, j: nat)
    requires IsRun(n, run, steps) && j < |run| && i < n && NeverWon(run[j], i)
    ensures |run[j].nodes| == n && run[j].nodes[i].role != Leader && run[j].nodes[i].tasks == []
  {
    VoteInvHolds(n, run, steps, j);
    assert RoleOk(run[j], i);
    if j == 0 {
    } else {
      HistoryGrows(n, run, steps, j - 1, j);
      NothingQueued(n, run, steps, i, j - 1);
      assert StepAt(run, steps, j - 1);
      var e := Part(run[j - 1], steps[j - 1], i);
      PartIsEvent(run[j - 1], steps[j - 1], i);
      if e.Some? { Reigns.QueueStays(run[j - 1].nodes[i], e.value); }
    }
  }

  /** Coming to lead leaves log, store, applied index and queue alone. */
  lemma ComesToLead(n: Node, e: Event)
    requires NodeRuns.Can(n, e) && !e.Restart? && n.role != Leader && NodeRuns.After(n, e).role == Leader
    ensures
      var m := NodeRuns.After(n, e);
      m.log == n.log && m.st == n.st && m.applied == n.applied && m.commit == n.commit && m.tasks == n.tasks
  {
    Reigns.QueueStays(n, e);
    if e.AppendAsked? {
      HandledEffect(n, Append(e.append), e.writeOk);
    } else {
      NodeRuns.OtherEventsSpare(n, e);
    }
  }

  /** A member's first reign, from point l on, begins with nothing queued and with the store that it made as
      a follower. */
  lemma FirstReignBegins(n: nat, run: seq<Cluster>, steps: seq<Step>, i: nat, l: nat)
    requires IsRun(n, run, steps) && InSyncAppend(run, steps) && 0 < l < |run| && i < n && NeverWon(run[l - 1], i)
    requires |run[l].nodes| == n && run[l].nodes[i].role == Leader
    ensures
      var x := run[l].nodes[i];
      && x.tasks == [] && x.applied <= |x.log| && x.st == Fold(map[], x.log[..x.applied])
  {
    NothingQueued(n, run, steps, i, l - 1);
    StoresHold(n, run, steps, l - 1);
    assert StepAt(run, steps, l - 1);
    PartIsEvent(run[l - 1], steps[l - 1], i);
    ComesToLead(run[l - 1].nodes[i], Part(run[l - 1], steps[l - 1], i).value);
  }

  lemma SamePrefix(n: nat, run: seq<Cluster>, steps: seq<Step>, j: nat, m: nat, a: nat, b: nat, d: nat)
    requires IsRun(n, run, steps) && InSyncAppend(run, steps) && OneVotePerTerm(run[|run| - 1])
    requires j < |run| && m < |run| && a < n && b < n && |run[j].nodes| == n && |run[m].nodes| == n
    requires d <= |run[j].nodes[a].log| && d <= |run[m].nodes[b].log|
    requires TermAt(run[j].nodes[a].log, d) == TermAt(run[m].nodes[b].log, d)
    ensures run[j].nodes[a].log[..d] == run[m].nodes[b].log[..d]
  {
    if j <= m {
      LogMatchingOverTime(n, run, steps, j, m, a, b, d);
    } else {
      LogMatchingOverTime(n, run, steps, m, j, b, a, d);
    }
  }

  /** What a leader and a follower have in common.  Member a leads for the first time, from point l to point
      j, and has drained its log up to d; member b has not led by point m, and has applied up to d, at an
      entry of the same term.  Their stores are the same if and only if what a had not applied by l makes no
      difference outside the keys that its reign has written since. */
  lemma FirstReignAgreesIff(n: nat, run: seq<Cluster>, steps: seq<Step>, a: nat, l: nat, j: nat, b: nat, m: nat)
    requires IsRun(n, run, steps) && InSyncAppend(run, steps) && OneVotePerTerm(run[|run| - 1])
    requires a < n && b < n && 0 < l <= j < |run| && m < |run|
    requires |run[l].nodes| == |run[j].nodes| == |run[m].nodes| == n
    requires NeverWon(run[l - 1], a) && LeadsThroughout(run, a, l, j) && NeverWon(run[m], b)
    requires
      var x, y := run[j].nodes[a], run[m].nodes[b];
      y.applied == |x.log| - |x.tasks| && TermAt(x.log, y.applied) == TermAt(y.log, y.applied)
    ensures
      var start, x, y := run[l].nodes[a], run[j].nodes[a], run[m].nodes[b];
      && |start.log| <= y.applied <= |x.log| && start.applied <= |start.log|
      && start.st == Fold(map[], start.log[..start.applied])
      && (x.st == y.st <==> ApplyPaths.Unaffected(x.log, start.log, start.st, map[], y.applied))
  {
    FirstReignBegins(n, run, steps, a, l);
    LeaderStoreInCluster(n, run, steps, a, l, j, map[]);
    StoresHold(n, run, steps, m);
    CommitBound(n, run, steps, m, b);
    SamePrefix(n, run, steps, j, m, a, b, run[m].nodes[b].applied);
  }
}
