/** What a commit index means across the cluster, in crash-free runs. */
module Commits {
  import opened Messages
  import opened Logs
  import opened CommitRule
  import opened Nodes
  import opened Clusters
  import opened Elections
  import opened Replication
  import opened Matching
  import NodeRuns

  /** Under InSyncAppend alone: every value a node stores for a member, across leaderships and with
      responses in flight, is at most that member's log length, and at most its own; and no node, as a
      leader or as a follower, ever commits or applies beyond its own log. */
  lemma CommitBound(n: nat, run: seq<Cluster>, steps: seq<Step>, j: nat, i: nat)
    requires IsRun(n, run, steps) && InSyncAppend(run, steps) && j < |run| && i < n
    ensures |run[j].nodes| == n
    ensures
      var s := run[j];
      && s.nodes[i].applied == s.nodes[i].commit <= |s.nodes[i].log|
      && forall x :: x in s.nodes[i].matchIndex ==>
           && x < n
           && s.nodes[i].matchIndex[x] <= |s.nodes[x].log|
           && s.nodes[i].matchIndex[x] <= |s.nodes[i].log|
  {
    LogInvHolds(n, run, steps, j);
    assert ProgressOk(run[j], i);
  }

  function Members(n: nat): (ms: set<nat>)
    ensures |ms| == n && forall x: nat :: x in ms <==> x < n
  {
    if n == 0 then {} else Members(n - 1) + {n - 1}
  }

  ghost predicate TracksAll(m: MatchMap, n: nat) {
    m.Keys == Members(n)
  }

  /** The members whose log starts with the first c entries of node i's log. */
  ghost function Holders(s: Cluster, i: nat, c: nat): set<nat>
    requires i < |s.nodes|
  {
    set x: nat | x < |s.nodes| && Agree(s.nodes[i].log, s.nodes[x].log, c)
  }

  /** Everybody whose match index has reached c holds the first c entries. */
  lemma ReachedHold(s: Cluster, i: nat, c: nat)
    requires i < |s.nodes| && MatchesAgree(s, i)
    ensures Reached(s.nodes[i].matchIndex, c) <= Holders(s, i, c)
  {
    var m := s.nodes[i].matchIndex;
    forall x | x in Reached(m, c) ensures x in Holders(s, i, c) {
      var log, y := s.nodes[i].log, s.nodes[x].log;
      assert log[..c] == log[..m[x]][..c] && y[..c] == y[..m[x]][..c];
    }
  }

  /** Step j is a callback on node i that moves its commit index. */
  ghost predicate MovesCommit(n: nat, run: seq<Cluster>, steps: seq<Step>, j: nat, i: nat)
    requires |run| == |steps| + 1
  {
    && j < |steps| && StepAt(run, steps, j) && steps[j].Return? && i == run[j].calls[steps[j].k].from && i < n
    && |run[j].nodes| == n && |run[j + 1].nodes| == n
    && run[j + 1].nodes[i].commit != run[j].nodes[i].commit
  }

  /** A callback that moves the commit index leaves it at the commit point of the tracked members. */
  lemma MovedCommit(s: Cluster, k: nat)
    requires Enabled(s, Return(k))
    requires
      var i := s.calls[k].from;
      OnReturn(s, k).nodes[i].commit != s.nodes[i].commit
    ensures
      var m := OnReturn(s, k).nodes[s.calls[k].from];
      m.matchIndex != map[] && m.commit == CommitPoint(m.matchIndex)
  {
    var c := s.calls[k];
    var n := s.nodes[c.from];
    if c.stage.resp.Appended? && c.stage.resp.append.success && n.role == Leader && c.stage.resp.append.term == n.term {
      TrackedProgress(n, c.stage.resp.append);
      assert c.stage.resp.append.memberId in OnAppendResponse(n, c.stage.resp.append).matchIndex;
    }
  }

  lemma TrackedSize(ks: set<nat>, n: nat)
    requires ks <= Members(n)
    ensures |ks| <= n && (|ks| == n <==> ks == Members(n))
  {
    SubsetSize(ks, Members(n));
    if ks != Members(n) {
      var x :| x in Members(n) && x !in ks;
      SubsetSize(ks, Members(n) - {x});
    }
  }

  /** The number of members that the rule asks for is a strict majority of all n exactly when all are
      tracked and n is odd. */
  lemma QuorumIsMajorityIff(ks: set<nat>, n: nat)
    requires ks != {} && ks <= Members(n)
    ensures 2 * Quorum(|ks|) > n <==> ks == Members(n) && n % 2 == 1
  {
    TrackedSize(ks, n);
  }

  lemma {:induction false} SubsetOfSize(s: set<nat>, k: nat) returns (t: set<nat>)
    requires k <= |s|
    ensures t <= s && |t| == k
    decreases |s|
  {
    if k == |s| {
      t := s;
    } else {
      var x :| x in s;
      t := SubsetOfSize(s - {x}, k);
    }
  }

  /** Exactly as many tracked members as the rule asks for may be all that have reached the commit point. */
  lemma BareQuorum(ks: set<nat>) returns (m: MatchMap)
    requires ks != {}
    ensures m.Keys == ks && |Reached(m, CommitPoint(m))| == Quorum(|ks|)
  {
    var half := SubsetOfSize(ks, Quorum(|ks|));
    m := map k | k in ks :: if k in half then 1 else 0;
    assert m.Keys == ks && |m| == |m.Keys| && Reached(m, 1) == half;
    forall x | x > 1 ensures |Reached(m, x)| < Quorum(|m|) { assert Reached(m, x) == {}; }
    CommitPointUnique(m, 1, CommitPoint(m));
  }

  /** The rule forces a strict majority: whatever the members that it tracks have reached, most of all n
      members have reached the commit point. */
  ghost predicate ForcesMajority(ks: set<nat>, n: nat)
    requires ks != {}
  {
    forall m: MatchMap :: m.Keys == ks ==> 2 * |Reached(m, CommitPoint(m))| > n
  }

  /** Tracking everybody, with n odd, is the exact condition under which a commit is a majority's. */
  lemma MajorityForcedIff(ks: set<nat>, n: nat)
    requires ks != {} && ks <= Members(n)
    ensures ForcesMajority(ks, n) <==> ks == Members(n) && n % 2 == 1
  {
    QuorumIsMajorityIff(ks, n);
    var m := BareQuorum(ks);
    forall m: MatchMap | m.Keys == ks ensures |Reached(m, CommitPoint(m))| >= Quorum(|ks|) {
      assert |m| == |m.Keys|;
    }
  }

  /** What a commit is worth.  Under OneVotePerTerm and InSyncAppend, whenever a callback moves a leader's
      commit index, at least k - k/2 members, of the k that it tracks, hold the leader's whole committed
      prefix, entry for entry; for all members and an odd number of them, and only then, the rule makes
      that a strict majority. */
  lemma CommitIsReplicated(n: nat, run: seq<Cluster>, steps: seq<Step>, j: nat, i: nat)
    requires IsRun(n, run, steps) && InSyncAppend(run, steps) && OneVotePerTerm(run[|run| - 1])
    requires MovesCommit(n, run, steps, j, i)
    ensures
      var s := run[j + 1];
      var m, held := s.nodes[i].matchIndex, Holders(s, i, s.nodes[i].commit);
      && s.nodes[i].commit <= |s.nodes[i].log|
      && m != map[] && m.Keys <= Members(n)
      && |held| >= Quorum(|m|)
      && (ForcesMajority(m.Keys, n) <==> TracksAll(m, n) && n % 2 == 1)
      && (TracksAll(m, n) && n % 2 == 1 ==> 2 * |held| > n)
  {
    var s := run[j + 1];
    var m := s.nodes[i].matchIndex;
    MovedCommit(run[j], steps[j].k);
    LogInvHolds(n, run, steps, j + 1);
    MatchInvHolds(n, run, steps, j + 1);
    CommitBound(n, run, steps, j + 1, i);
    ReachedHold(s, i, s.nodes[i].commit);
    SubsetSize(Reached(m, s.nodes[i].commit), Holders(s, i, s.nodes[i].commit));
    assert |m| == |m.Keys|;
    QuorumIsMajorityIff(m.Keys, n);
    MajorityForcedIff(m.Keys, n);
  }

  // ---- Length completeness ----------------------------------------------------------------------------

  /** The members with at least c entries. */
  ghost function Longs(s: Cluster, c: nat): set<nat> {
    set x: nat | x < |s.nodes| && |s.nodes[x].log| >= c
  }

  /** Call k of the later state s' is a vote granted since s. */
  predicate GrantedSince(s: Cluster, s': Cluster, k: nat) {
    k < |s'.calls| && IsGrant(s'.calls[k]) && !(k < |s.calls| && IsGrant(s.calls[k]))
  }

  /** Votes granted since s by members that already had c entries went to requests for at least c. */
  ghost predicate LateGrantsLong(s: Cluster, s': Cluster, c: nat) {
    forall k: nat :: GrantedSince(s, s', k) && s'.calls[k].to in Longs(s, c) ==> s'.calls[k].req.vote.lastLogIndex >= c
  }

  lemma StepLateGrants(s: Cluster, s1: Cluster, t: Step, c: nat)
    requires LateGrantsLong(s, s1, c) && LogsGrow(s, s1) && Enabled(s1, t)
    ensures LateGrantsLong(s, Next(s1, t), c)
  {
    var s' := Next(s1, t);
    forall k: nat | GrantedSince(s, s', k) && s'.calls[k].to in Longs(s, c)
      ensures s'.calls[k].req.vote.lastLogIndex >= c
    {
      if k < |s1.calls| && IsGrant(s1.calls[k]) {
        assert GrantedSince(s, s1, k);
      } else {
        assert t.Handle? && t.k == k;
        var x := s1.calls[k].to;
        assert s.nodes[x].log <= s1.nodes[x].log;
      }
    }
  }

  lemma {:induction false} LateGrantsHold(n: nat, run: seq<Cluster>, steps: seq<Step>, i: nat, j: nat, c: nat)
    requires IsRun(n, run, steps) && InSyncAppend(run, steps) && i <= j < |run|
    ensures LateGrantsLong(run[i], run[j], c)
    decreases j - i
  {
    if i == j {
    } else {
      LateGrantsHold(n, run, steps, i, j - 1, c);
      LogsOnlyGrow(n, run, steps, i, j - 1);
      assert StepAt(run, steps, j - 1);
      StepLateGrants(run[i], run[j - 1], steps[j - 1], c);
    }
  }

  /** All the votes of candidate L for term t on record in s' were granted since s. */
  ghost predicate VotedLater(s: Cluster, s': Cluster, L: nat, t: nat) {
    forall k: nat, v: nat :: GrantAt(s', k, v, L, t) ==> GrantedSince(s, s', k)
  }

  /** Length completeness, without OneVotePerTerm: once a strict majority hold at least c entries,
      every leader whose votes are all granted later has at least c entries. */
  lemma LengthCompleteness(n: nat, run: seq<Cluster>, steps: seq<Step>, i: nat, j: nat, L: nat, c: nat)
    requires IsRun(n, run, steps) && InSyncAppend(run, steps) && i <= j < |run| && L < n
    requires 2 * |Longs(run[i], c)| > n
    requires |run[j].nodes| == n && run[j].nodes[L].role == Leader
    requires VotedLater(run[i], run[j], L, run[j].nodes[L].term)
    ensures |run[j].nodes[L].log| >= c
  {
    var s, t := run[j], run[j].nodes[L].term;
    LogInvHolds(n, run, steps, i);
    LogInvHolds(n, run, steps, j);
    LogsOnlyGrow(n, run, steps, i, j);
    LateGrantsHold(n, run, steps, i, j, c);
    assert RoleOk(s, L) && CandidacyOk(s, L, t);
    var v := MajoritiesMeet(s.backers[(L, t)], Longs(run[i], c), n);
    assert Supports(s, v, L, t);
    if v == L {
      assert run[i].nodes[L].log <= s.nodes[L].log;
    } else {
      var k: nat :| GrantAt(s, k, v, L, t);
      assert GrantedSince(run[i], s, k) && LogCallOk(s, s.calls[k]);
    }
  }

  lemma SamePrefixSameTerm(x: seq<LogEntry>, y: seq<LogEntry>, c: nat)
    requires c <= |x| && c <= |y| && x[..c] == y[..c]
    ensures TermAt(x, c) == TermAt(y, c)
  {
    if c > 0 { assert x[..c][c - 1] == x[c - 1] && y[..c][c - 1] == y[c - 1]; }
  }

  /** Log matching across time: a log at one point of a run and a log at a later point share their first
      c entries exactly when they have the same term at index c. */
  lemma LogMatchingOverTime(n: nat, run: seq<Cluster>, steps: seq<Step>, j: nat, l: nat, a: nat, b: nat, c: nat)
    requires IsRun(n, run, steps) && InSyncAppend(run, steps) && OneVotePerTerm(run[|run| - 1])
    requires j <= l < |run| && a < n && b < n && |run[j].nodes| == n && |run[l].nodes| == n
    requires c <= |run[j].nodes[a].log| && c <= |run[l].nodes[b].log|
    ensures
      var x, y := run[j].nodes[a].log, run[l].nodes[b].log;
      x[..c] == y[..c] <==> TermAt(x, c) == TermAt(y, c)
  {
    var x, later, y := run[j].nodes[a].log, run[l].nodes[a].log, run[l].nodes[b].log;
    LogsOnlyGrow(n, run, steps, j, l);
    assert x <= later;
    assert later[..c] == x[..c];
    SamePrefixSameTerm(x, later, c);
    if TermAt(x, c) == TermAt(y, c) {
      if c > 0 { LogMatching(n, run, steps, l, a, b, c); }
    } else if x[..c] == y[..c] {
      SamePrefixSameTerm(x, y, c);
    }
  }

  lemma CommitIsHeld(n: nat, run: seq<Cluster>, steps: seq<Step>, j: nat, i: nat)
    requires IsRun(n, run, steps) && InSyncAppend(run, steps) && OneVotePerTerm(run[|run| - 1])
    requires MovesCommit(n, run, steps, j, i)
    requires TracksAll(run[j + 1].nodes[i].matchIndex, n) && n % 2 == 1
    ensures
      var c := run[j + 1].nodes[i].commit;
      c <= |run[j + 1].nodes[i].log| && 2 * |Longs(run[j + 1], c)| > n
  {
    var s := run[j + 1];
    var c := s.nodes[i].commit;
    CommitIsReplicated(n, run, steps, j, i);
    SubsetSize(Holders(s, i, c), Longs(s, c));
  }

  /** Commits and later leaders.  A commit made by a leader that tracks all of an odd number of members
      is never longer than the log of a leader elected later.  The later leader's log starts with the
      committed entries exactly when it has the committed term at the commit index. */
  lemma CommitOutlivesReign(n: nat, run: seq<Cluster>, steps: seq<Step>, j: nat, i: nat, l: nat, L: nat)
    requires IsRun(n, run, steps) && InSyncAppend(run, steps) && OneVotePerTerm(run[|run| - 1])
    requires MovesCommit(n, run, steps, j, i)
    requires TracksAll(run[j + 1].nodes[i].matchIndex, n) && n % 2 == 1
    requires j + 1 <= l < |run| && L < n && |run[l].nodes| == n && run[l].nodes[L].role == Leader
    requires VotedLater(run[j + 1], run[l], L, run[l].nodes[L].term)
    ensures
      var c := run[j + 1].nodes[i].commit;
      var committed, log := run[j + 1].nodes[i].log, run[l].nodes[L].log;
      && c <= |committed| && c <= |log|
      && (committed[..c] == log[..c] <==> TermAt(committed, c) == TermAt(log, c))
  {
    var c := run[j + 1].nodes[i].commit;
    CommitIsHeld(n, run, steps, j, i);
    LengthCompleteness(n, run, steps, j + 1, l, L, c);
    LogMatchingOverTime(n, run, steps, j + 1, l, i, L, c);
  }

  lemma GrantedUpToDate(s: Cluster, k: nat, writeOk: bool)
    requires Enabled(s, Handle(k, writeOk)) && IsGrant(OnHandle(s, k, writeOk).calls[k])
    ensures s.calls[k].req.Vote? && UpToDate(s.nodes[s.calls[k].to], s.calls[k].req.vote)
  {}

  /** A vote compares logs.  Under OneVotePerTerm and InSyncAppend, a member grants its vote only to a
      candidate whose log was longer than its own when it asked, or extends its own. */
  lemma GrantComparesLogs(n: nat, run: seq<Cluster>, steps: seq<Step>, j: nat)
    requires IsRun(n, run, steps) && InSyncAppend(run, steps) && OneVotePerTerm(run[|run| - 1])
    requires j < |steps| && StepAt(run, steps, j) && steps[j].Handle? && IsGrant(run[j + 1].calls[steps[j].k])
    ensures
      var c := run[j].calls[steps[j].k];
      && c.from < |run[j].nodes| && c.to < |run[j].nodes|
      && var candidate, voter := run[j].nodes[c.from].log, run[j].nodes[c.to].log;
         |voter| < c.req.vote.lastLogIndex <= |candidate| || voter <= candidate
  {
    LogInvHolds(n, run, steps, j);
    MatchInvHolds(n, run, steps, j);
    var s := run[j];
    var c := s.calls[steps[j].k];
    assert CallOk(s, c) && LogCallOk(s, c);
    GrantedUpToDate(s, steps[j].k, steps[j].writeOk);
    var candidate, voter := s.nodes[c.from].log, s.nodes[c.to].log;
    if c.req.vote.lastLogIndex == |voter| && |voter| > 0 {
      assert Match(candidate, voter);
      assert candidate[..|voter| - 1 + 1] == voter[..|voter| - 1 + 1] == voter;
    }
  }

  // ---- Stores ---------------------------------------------------------------------------------------------

  /** Node i has not led so far. */
  ghost predicate NeverWon(s: Cluster, i: nat) {
    forall t: nat :: (i, t) !in s.won
  }

  /** A node that has not led has applied exactly its log up to `applied`. */
  ghost predicate StoresOk(s: Cluster) {
    forall i :: 0 <= i < |s.nodes| && NeverWon(s, i) ==> NodeRuns.FollowerOk(s.nodes[i], map[])
  }

  lemma CallbackSpares(n: Node, req: Request, resp: Response)
    requires (req.Vote? <==> resp.Voted?) && n.role != Leader
    ensures
      var m := Returned(n, req, resp);
      m.log == n.log && m.st == n.st && m.applied == n.applied && m.commit == n.commit
  {}

  lemma HandledStore(n: Node, req: Request, writeOk: bool)
    requires NodeRuns.FollowerOk(n, map[])
    requires req.Append? && Accepts(n, req.append) ==> InSync(n.log, req.append.prevIndex, req.append.prevTerm)
    ensures NodeRuns.FollowerOk(Handled(n, req, writeOk).0, map[])
  {
    if req.Append? { NodeRuns.AppendKeepsFollower(n, map[], req.append, writeOk); }
  }

  lemma StepKeepsStores(s: Cluster, t: Step, n: nat)
    requires VoteInv(s, n) && StoresOk(s) && Enabled(s, t) && StepInSync(s, t)
    ensures StoresOk(Next(s, t))
  {
    var s' := Next(s, t);
    StepGrowsHistory(s, t, n);
    forall i | 0 <= i < |s'.nodes| && NeverWon(s', i) ensures NodeRuns.FollowerOk(s'.nodes[i], map[]) {
      assert RoleOk(s, i) && NeverWon(s, i);
      match t
      case Handle(k, ok) =>
        if s.calls[k].to == i { HandledStore(s.nodes[i], s.calls[k].req, ok); }
      case Return(k) =>
        if s.calls[k].from == i { CallbackSpares(s.nodes[i], s.calls[k].req, s.calls[k].stage.resp); }
      case _ =>
    }
  }

  lemma InitialStores(n: nat)
    ensures StoresOk(Initial(n))
  {}

  lemma RunKeepsStores(n: nat, run: seq<Cluster>, steps: seq<Step>, j: nat)
    requires IsRun(n, run, steps) && InSyncAppend(run, steps) && 0 < j < |run| && StoresOk(run[j - 1])
    ensures StoresOk(run[j])
  {
    VoteInvHolds(n, run, steps, j - 1);
    assert StepAt(run, steps, j - 1);
    StepKeepsStores(run[j - 1], steps[j - 1], n);
  }

  lemma {:induction false} StoresHold(n: nat, run: seq<Cluster>, steps: seq<Step>, j: nat)
    requires IsRun(n, run, steps) && InSyncAppend(run, steps) && j < |run|
    ensures StoresOk(run[j])
  {
    if j == 0 {
      InitialStores(n);
    } else {
      StoresHold(n, run, steps, j - 1);
      RunKeepsStores(n, run, steps, j);
    }
  }

  /** Replicas agree.  Under OneVotePerTerm and InSyncAppend, two nodes that have not led, at possibly
      different points of a run, hold the same store whenever they have applied up to the same index and
      their entries there have the same term, however each received and batched its entries. */
  lemma ReplicasAgree(n: nat, run: seq<Cluster>, steps: seq<Step>, i: nat, j: nat, a: nat, b: nat)
    requires IsRun(n, run, steps) && InSyncAppend(run, steps) && OneVotePerTerm(run[|run| - 1])
    requires i <= j < |run| && a < n && b < n && NeverWon(run[j], a) && NeverWon(run[j], b)
    requires |run[i].nodes| == n && |run[j].nodes| == n
    requires
      var x, y := run[i].nodes[a], run[j].nodes[b];
      x.applied == y.applied && TermAt(x.log, x.applied) == TermAt(y.log, y.applied)
    ensures run[i].nodes[a].st == run[j].nodes[b].st
  {
    HistoryGrows(n, run, steps, i, j);
    StoresHold(n, run, steps, i);
    StoresHold(n, run, steps, j);
    CommitBound(n, run, steps, i, a);
    CommitBound(n, run, steps, j, b);
    assert NeverWon(run[i], a);
    LogMatchingOverTime(n, run, steps, i, j, a, b, run[i].nodes[a].applied);
  }
}
