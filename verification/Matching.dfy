/** Log matching, and what it gives the commit rule: the leader's view of its members' logs is exact. */
module Matching {
  import opened Messages
  import opened Logs
  import opened CommitRule
  import opened Nodes
  import opened Clusters
  import opened Elections
  import opened Replication

  /** Two logs with the same term at an index are identical up to and including that index. */
  ghost predicate Match(x: seq<LogEntry>, y: seq<LogEntry>) {
    forall k :: 0 <= k < |x| && k < |y| && x[k].term == y[k].term ==> x[..k + 1] == y[..k + 1]
  }

  ghost predicate LogsMatch(s: Cluster) {
    forall a, b :: 0 <= a < |s.nodes| && 0 <= b < |s.nodes| ==> Match(s.nodes[a].log, s.nodes[b].log)
  }

  /** Every entry of term t, in whichever log, is also in the log of the winner of t. */
  ghost predicate Owns(s: Cluster, c: nat, t: nat, log: seq<LogEntry>)
    requires c < |s.nodes|
  {
    forall k :: 0 <= k < |log| && log[k].term == t ==> k < |s.nodes[c].log| && s.nodes[c].log[k].term == t
  }

  ghost predicate OwnsTerm(s: Cluster, c: nat, t: nat) {
    c < |s.nodes| && forall a :: 0 <= a < |s.nodes| ==> Owns(s, c, t, s.nodes[a].log)
  }

  ghost predicate WinnersOwn(s: Cluster) {
    forall c: nat, t: nat :: (c, t) in s.won ==> OwnsTerm(s, c, t)
  }

  /** Every entry's term has a winner. */
  ghost predicate Sourced(s: Cluster) {
    forall a, k :: 0 <= a < |s.nodes| && 0 <= k < |s.nodes[a].log| ==> HasWinner(s, s.nodes[a].log[k].term)
  }

  ghost predicate HasWinner(s: Cluster, t: nat) {
    exists c: nat :: (c, t) in s.won
  }

  predicate Agree(x: seq<LogEntry>, y: seq<LogEntry>, m: nat) {
    m <= |x| && m <= |y| && x[..m] == y[..m]
  }

  ghost predicate ReportAgrees(s: Cluster, c: Call) {
    c.from < |s.nodes| && c.to < |s.nodes| && Reports(c) ==>
      Agree(s.nodes[c.from].log, s.nodes[c.to].log, c.stage.resp.append.lastLogIndex)
  }

  /** Every match index that node i stores names a prefix that i and the member have in common. */
  ghost predicate MatchesAgree(s: Cluster, i: nat)
    requires i < |s.nodes|
  {
    Tracks(s, i, s.nodes[i].matchIndex)
  }

  ghost predicate Tracks(s: Cluster, i: nat, m: MatchMap)
    requires i < |s.nodes|
  {
    forall x :: x in m ==> x < |s.nodes| && Agree(s.nodes[i].log, s.nodes[x].log, m[x])
  }

  ghost predicate MatchInv(s: Cluster) {
    && LogsMatch(s) && WinnersOwn(s) && Sourced(s)
    && (forall k :: 0 <= k < |s.calls| ==> ReportAgrees(s, s.calls[k]))
    && (forall i :: 0 <= i < |s.nodes| ==> MatchesAgree(s, i))
  }

  // ---- Facts about sequences --------------------------------------------------------------------------

  lemma AgreeGrows(x: seq<LogEntry>, y: seq<LogEntry>, x': seq<LogEntry>, y': seq<LogEntry>, m: nat)
    requires Agree(x, y, m) && x <= x' && y <= y'
    ensures Agree(x', y', m)
  {
    assert x'[..m] == x[..m] && y'[..m] == y[..m];
  }

  /** A prefix of a matching log matches. */
  lemma PrefixMatches(p: seq<LogEntry>, x: seq<LogEntry>, y: seq<LogEntry>)
    requires p <= x && Match(x, y)
    ensures Match(p, y) && Match(y, p)
  {
    forall k | 0 <= k < |p| && k < |y| && p[k].term == y[k].term ensures p[..k + 1] == y[..k + 1] {
      assert p[..k + 1] == x[..k + 1];
    }
  }

  /** An in-sync slice of x turns a matching log into a prefix of x. */
  lemma SliceMakesPrefix(x: seq<LogEntry>, y: seq<LogEntry>, prev: nat, es: seq<LogEntry>)
    requires prev == |y| && prev + |es| <= |x| && es == x[prev..prev + |es|]
    requires Match(x, y) && (prev == 0 || x[prev - 1].term == y[prev - 1].term)
    ensures y + es <= x && y <= x
  {
    if prev > 0 {
      assert x[..prev - 1 + 1] == y[..prev - 1 + 1];
      assert y == x[..prev];
    }
    assert x[..prev + |es|] == x[..prev] + x[prev..prev + |es|];
  }

  // ---- Steps that leave all logs alone -----------------------------------------------------------------

  ghost predicate SameLogs(s: Cluster, s': Cluster) {
    |s.nodes| == |s'.nodes| && forall i :: 0 <= i < |s.nodes| ==> s'.nodes[i].log == s.nodes[i].log
  }

  lemma SameLogsMatch(s: Cluster, s': Cluster)
    requires MatchInv(s) && SameLogs(s, s') && s.won <= s'.won
    ensures LogsMatch(s') && Sourced(s')
    ensures s.won == s'.won ==> WinnersOwn(s')
  {
    forall a, k | 0 <= a < |s'.nodes| && 0 <= k < |s'.nodes[a].log| ensures HasWinner(s', s'.nodes[a].log[k].term) {
      assert HasWinner(s, s.nodes[a].log[k].term);
      var c: nat :| (c, s.nodes[a].log[k].term) in s.won;
      assert (c, s.nodes[a].log[k].term) in s'.won;
    }
    forall a, b | 0 <= a < |s'.nodes| && 0 <= b < |s'.nodes| ensures Match(s'.nodes[a].log, s'.nodes[b].log) {
      assert Match(s.nodes[a].log, s.nodes[b].log);
    }
    if s.won == s'.won {
      forall c: nat, t: nat | (c, t) in s'.won ensures OwnsTerm(s', c, t) {
        assert OwnsTerm(s, c, t);
        forall a | 0 <= a < |s'.nodes| ensures Owns(s', c, t, s'.nodes[a].log) {
          assert Owns(s, c, t, s.nodes[a].log);
        }
      }
    }
  }

  lemma SameLogsAgree(s: Cluster, s': Cluster, i: nat)
    requires MatchInv(s) && SameLogs(s, s') && i < |s.nodes| && s'.nodes == s.nodes[i := s'.nodes[i]]
    ensures forall c :: c in s.calls ==> ReportAgrees(s', c)
    ensures forall j :: 0 <= j < |s.nodes| && j != i ==> MatchesAgree(s', j)
    ensures s'.nodes[i].matchIndex == s.nodes[i].matchIndex ==> MatchesAgree(s', i)
  {
    forall c | c in s.calls ensures ReportAgrees(s', c) {
      var k :| 0 <= k < |s.calls| && s.calls[k] == c;
      assert ReportAgrees(s, s.calls[k]);
    }
    forall j | 0 <= j < |s.nodes| && s'.nodes[j].matchIndex == s.nodes[j].matchIndex ensures MatchesAgree(s', j) {
      assert MatchesAgree(s, j);
    }
  }

  lemma TimeoutMatches(s: Cluster, i: nat)
    requires MatchInv(s) && Enabled(s, Timeout(i))
    ensures MatchInv(OnTimeout(s, i))
  {
    var s' := OnTimeout(s, i);
    SameLogsMatch(s, s');
    SameLogsAgree(s, s', i);
  }

  lemma TickCallsSilent(n: nat, i: nat, resends: map<nat, AppendRequest>, heartbeat: AppendRequest)
    ensures forall c :: c in ResendCalls(n, i, resends, heartbeat) + Broadcast(n, i, Append(heartbeat)) ==> !Reports(c)
  {}

  lemma NewCallsAgree(s: Cluster, s': Cluster, calls: seq<Call>)
    requires s'.calls == s.calls + calls && forall c :: c in calls ==> !Reports(c)
    requires forall c :: c in s.calls ==> ReportAgrees(s', c)
    ensures forall k :: 0 <= k < |s'.calls| ==> ReportAgrees(s', s'.calls[k])
  {
    forall k | 0 <= k < |s'.calls| ensures ReportAgrees(s', s'.calls[k]) {
      if k < |s.calls| { assert s'.calls[k] in s.calls; } else { assert s'.calls[k] in calls; }
    }
  }

  lemma TickMatches(s: Cluster, i: nat)
    requires MatchInv(s) && Enabled(s, Tick(i))
    ensures MatchInv(OnTick(s, i))
  {
    var s' := OnTick(s, i);
    var n, m, heartbeat := |s.nodes|, s.nodes[i], AppendRequestOf(s.nodes[i]);
    SameLogsMatch(s, s');
    SameLogsAgree(s, s', i);
    TickCallsSilent(n, i, Resends(m), heartbeat);
    NewCallsAgree(s, s', ResendCalls(n, i, Resends(m), heartbeat) + Broadcast(n, i, Append(heartbeat)));
  }

  // ---- Callbacks --------------------------------------------------------------------------------------------

  /** A new winner's term has no entries yet: they would have come from a winner of that term. */
  lemma NewWinnerOwns(s: Cluster, s': Cluster, c: nat, t: nat)
    requires MatchInv(s) && SameLogs(s, s') && s'.won == s.won + {(c, t)} && c < |s.nodes|
    requires (c, t) !in s.won && OneWinnerPerTerm(s')
    ensures WinnersOwn(s')
  {
    forall d: nat, u: nat | (d, u) in s'.won ensures OwnsTerm(s', d, u) {
      forall a | 0 <= a < |s'.nodes| ensures d < |s'.nodes| && Owns(s', d, u, s'.nodes[a].log) {
        if (d, u) in s.won {
          assert OwnsTerm(s, d, u) && Owns(s, d, u, s.nodes[a].log);
        } else {
          forall k | 0 <= k < |s.nodes[a].log| ensures s.nodes[a].log[k].term != t {
            assert HasWinner(s, s.nodes[a].log[k].term);
            var e: nat :| (e, s.nodes[a].log[k].term) in s.won;
            assert (e, s.nodes[a].log[k].term) in s'.won;
          }
        }
      }
    }
  }

  /** The callback's match indices name common prefixes. */
  lemma ReturnedAgree(s: Cluster, k: nat, n: nat)
    requires VoteInv(s, n) && MatchInv(s) && Enabled(s, Return(k))
    ensures MatchesAgree(OnReturn(s, k), s.calls[k].from)
  {
    var s' := OnReturn(s, k);
    var c := s.calls[k];
    var m, m' := s.nodes[c.from], s'.nodes[c.from];
    ReturnedProgress(m, c.req, c.stage.resp);
    assert CallOk(s, c) && ReportAgrees(s, c);
    forall x | x in m'.matchIndex
      ensures x < |s'.nodes| && Agree(m'.log, s'.nodes[x].log, m'.matchIndex[x])
    {
      assert MatchesAgree(s, c.from) && MatchFrom(m, m', c.req, c.stage.resp, x);
    }
  }

  lemma ReturnMatches(s: Cluster, k: nat, n: nat)
    requires VoteInv(s, n) && MatchInv(s) && Enabled(s, Return(k)) && OneWinnerPerTerm(OnReturn(s, k))
    ensures MatchInv(OnReturn(s, k))
  {
    var s' := OnReturn(s, k);
    var c := s.calls[k];
    var m, m' := s.nodes[c.from], s'.nodes[c.from];
    ReturnedProgress(m, c.req, c.stage.resp);
    ReturnedEffect(m, c.req, c.stage.resp);
    SameLogsMatch(s, s');
    SameLogsAgree(s, s', c.from);
    if m.role != Leader && m'.role == Leader {
      assert RoleOk(s, c.from);
      NewWinnerOwns(s, s', c.from, m.term);
    }
    ReturnedAgree(s, k, n);
    forall l | 0 <= l < |s'.calls| ensures ReportAgrees(s', s'.calls[l]) {
      assert s.calls[l] in s.calls;
    }
  }

  // ---- A leader appends --------------------------------------------------------------------------------------

  /** What happens to logs when node i's grows, all other logs and the winners staying put. */
  ghost predicate OneLogGrows(s: Cluster, s': Cluster, i: nat) {
    && i < |s.nodes| == |s'.nodes| && s'.nodes == s.nodes[i := s'.nodes[i]]
    && s.nodes[i].log <= s'.nodes[i].log && s'.won == s.won
  }

  lemma GrowthKeepsAgreement(s: Cluster, s': Cluster, i: nat)
    requires MatchInv(s) && OneLogGrows(s, s', i)
    ensures forall c :: c in s.calls ==> ReportAgrees(s', c)
    ensures forall j :: 0 <= j < |s.nodes| ==> Tracks(s', j, s.nodes[j].matchIndex)
  {
    forall c | c in s.calls ensures ReportAgrees(s', c) {
      var k :| 0 <= k < |s.calls| && s.calls[k] == c;
      assert ReportAgrees(s, s.calls[k]);
      if c.from < |s.nodes| && c.to < |s.nodes| && Reports(c) {
        AgreeGrows(s.nodes[c.from].log, s.nodes[c.to].log, s'.nodes[c.from].log, s'.nodes[c.to].log,
                   c.stage.resp.append.lastLogIndex);
      }
    }
    forall j | 0 <= j < |s.nodes| ensures Tracks(s', j, s.nodes[j].matchIndex) {
      assert MatchesAgree(s, j);
      forall x | x in s.nodes[j].matchIndex
        ensures x < |s.nodes| && Agree(s'.nodes[j].log, s'.nodes[x].log, s.nodes[j].matchIndex[x])
      {
        AgreeGrows(s.nodes[j].log, s.nodes[x].log, s'.nodes[j].log, s'.nodes[x].log, s.nodes[j].matchIndex[x]);
      }
    }
  }

  /** The winner of term t appends an entry of term t. */
  lemma WinnerAppends(s: Cluster, s': Cluster, i: nat, e: LogEntry)
    requires MatchInv(s) && OneLogGrows(s, s', i) && s'.nodes[i].log == s.nodes[i].log + [e]
    requires (i, e.term) in s.won && OneWinnerPerTerm(s)
    ensures LogsMatch(s') && WinnersOwn(s') && Sourced(s')
  {
    var log, log' := s.nodes[i].log, s'.nodes[i].log;
    forall b | 0 <= b < |s.nodes| && b != i ensures Match(log', s'.nodes[b].log) && Match(s'.nodes[b].log, log') {
      var y := s.nodes[b].log;
      assert Match(log, y) && OwnsTerm(s, i, e.term) && Owns(s, i, e.term, y);
      forall k | 0 <= k < |log'| && k < |y| && log'[k].term == y[k].term ensures log'[..k + 1] == y[..k + 1] {
        assert k < |log|;
        assert log'[..k + 1] == log[..k + 1];
      }
    }
    forall c: nat, t: nat | (c, t) in s'.won ensures OwnsTerm(s', c, t) {
      assert OwnsTerm(s, c, t);
      forall a | 0 <= a < |s'.nodes| ensures Owns(s', c, t, s'.nodes[a].log) {
        assert Owns(s, c, t, s.nodes[a].log);
        if a == i && e.term == t { assert c == i; }
      }
    }
    forall a, k | 0 <= a < |s'.nodes| && 0 <= k < |s'.nodes[a].log| ensures HasWinner(s', s'.nodes[a].log[k].term) {
      if k < |s.nodes[a].log| { assert HasWinner(s, s.nodes[a].log[k].term); }
    }
  }

  lemma ClientMatches(s: Cluster, t: Step, n: nat)
    requires VoteInv(s, n) && LogInv(s) && MatchInv(s) && t.Client? && Enabled(s, t) && OneWinnerPerTerm(s)
    ensures MatchInv(OnClient(s, t))
  {
    var s' := OnClient(s, t);
    var m := s.nodes[t.i];
    assert RoleOk(s, t.i);
    if m.role == Leader && t.writeOk {
      WinnerAppends(s, s', t.i, LogEntry(m.term, |m.log| + 1, t.command));
      GrowthKeepsAgreement(s, s', t.i);
    } else {
      SameLogsMatch(s, s');
      SameLogsAgree(s, s', t.i);
    }
    forall k | 0 <= k < |s'.calls| ensures ReportAgrees(s', s'.calls[k]) {
      if k < |s.calls| { assert s'.calls[k] in s.calls; }
    }
    forall j | 0 <= j < |s'.nodes| ensures MatchesAgree(s', j) { assert MatchesAgree(s, j); }
  }

  // ---- A follower appends ------------------------------------------------------------------------------------

  /** Node i's log becomes a longer prefix of node L's. */
  lemma FollowerAppends(s: Cluster, s': Cluster, i: nat, L: nat)
    requires MatchInv(s) && OneLogGrows(s, s', i) && L < |s.nodes| && L != i
    requires s'.nodes[i].log <= s.nodes[L].log
    ensures LogsMatch(s') && WinnersOwn(s') && Sourced(s')
  {
    var log', x := s'.nodes[i].log, s.nodes[L].log;
    forall b | 0 <= b < |s.nodes| && b != i ensures Match(log', s'.nodes[b].log) && Match(s'.nodes[b].log, log') {
      assert Match(x, s.nodes[b].log);
      PrefixMatches(log', x, s.nodes[b].log);
    }
    forall c: nat, t: nat | (c, t) in s'.won ensures OwnsTerm(s', c, t) {
      assert OwnsTerm(s, c, t) && Owns(s, c, t, x);
      forall a | 0 <= a < |s'.nodes| ensures Owns(s', c, t, s'.nodes[a].log) {
        assert Owns(s, c, t, s.nodes[a].log);
      }
    }
    forall a, k | 0 <= a < |s'.nodes| && 0 <= k < |s'.nodes[a].log| ensures HasWinner(s', s'.nodes[a].log[k].term) {
      if a == i { assert HasWinner(s, x[k].term); } else { assert HasWinner(s, s.nodes[a].log[k].term); }
    }
  }

  /** Under LogMatching, an in-sync append makes the receiver's log a prefix of the sender's. */
  lemma AppendMakesPrefix(s: Cluster, k: nat, writeOk: bool, n: nat)
    requires VoteInv(s, n) && LogInv(s) && LogsMatch(s)
    requires Enabled(s, Handle(k, writeOk)) && StepInSync(s, Handle(k, writeOk))
    ensures
      var s' := OnHandle(s, k, writeOk);
      var c := s.calls[k];
      && c.from != c.to && c.from < n && s'.nodes[c.to].matchIndex == s.nodes[c.to].matchIndex
      && s.nodes[c.to].log <= s'.nodes[c.to].log
      && (if Reports(s'.calls[k]) then
            && s'.nodes[c.to].log <= s.nodes[c.from].log
            && s'.calls[k].stage.resp.append.lastLogIndex == |s'.nodes[c.to].log|
          else s'.nodes[c.to].log == s.nodes[c.to].log)
  {
    var s' := OnHandle(s, k, writeOk);
    var c := s.calls[k];
    assert ProgressOk(s, c.to) && LogCallOk(s, c) && CallOk(s, c);
    HandledInSync(s.nodes[c.to], c.req, writeOk);
    if Reports(s'.calls[k]) {
      var q, x := c.req.append, s.nodes[c.from].log;
      assert Match(x, s.nodes[c.to].log);
      SliceMakesPrefix(x, s.nodes[c.to].log, q.prevIndex, q.entries);
    }
  }

  lemma HandleKeepsLogs(s: Cluster, k: nat, writeOk: bool, n: nat)
    requires VoteInv(s, n) && LogInv(s) && MatchInv(s)
    requires Enabled(s, Handle(k, writeOk)) && StepInSync(s, Handle(k, writeOk))
    ensures var s' := OnHandle(s, k, writeOk); LogsMatch(s') && WinnersOwn(s') && Sourced(s')
  {
    var s' := OnHandle(s, k, writeOk);
    AppendMakesPrefix(s, k, writeOk, n);
    if Reports(s'.calls[k]) {
      FollowerAppends(s, s', s.calls[k].to, s.calls[k].from);
    } else {
      SameLogsMatch(s, s');
    }
  }

  lemma HandleKeepsReports(s: Cluster, k: nat, writeOk: bool, n: nat)
    requires VoteInv(s, n) && LogInv(s) && MatchInv(s)
    requires Enabled(s, Handle(k, writeOk)) && StepInSync(s, Handle(k, writeOk))
    ensures
      var s' := OnHandle(s, k, writeOk);
      forall l :: 0 <= l < |s'.calls| ==> ReportAgrees(s', s'.calls[l])
  {
    var s' := OnHandle(s, k, writeOk);
    AppendMakesPrefix(s, k, writeOk, n);
    GrowthKeepsAgreement(s, s', s.calls[k].to);
    forall l | 0 <= l < |s'.calls| ensures ReportAgrees(s', s'.calls[l]) { assert s.calls[l] in s.calls; }
  }

  lemma HandleMatches(s: Cluster, k: nat, writeOk: bool, n: nat)
    requires VoteInv(s, n) && LogInv(s) && MatchInv(s)
    requires Enabled(s, Handle(k, writeOk)) && StepInSync(s, Handle(k, writeOk))
    ensures MatchInv(OnHandle(s, k, writeOk))
  {
    var s' := OnHandle(s, k, writeOk);
    var c := s.calls[k];
    AppendMakesPrefix(s, k, writeOk, n);
    GrowthKeepsAgreement(s, s', c.to);
    HandleKeepsLogs(s, k, writeOk, n);
    HandleKeepsReports(s, k, writeOk, n);
    forall j | 0 <= j < |s'.nodes| ensures MatchesAgree(s', j) {
      assert Tracks(s', j, s.nodes[j].matchIndex);
    }
  }

  // ---- Runs ----------------------------------------------------------------------------------------------------

  lemma StepKeepsMatchInv(s: Cluster, t: Step, n: nat)
    requires VoteInv(s, n) && LogInv(s) && MatchInv(s) && Enabled(s, t) && StepInSync(s, t)
    requires OneWinnerPerTerm(s) && OneWinnerPerTerm(Next(s, t))
    ensures MatchInv(Next(s, t))
  {
    match t
    case Timeout(i) => TimeoutMatches(s, i);
    case Tick(i) => TickMatches(s, i);
    case Client(_, _, _, _, _) => ClientMatches(s, t, n);
    case Handle(k, ok) => HandleMatches(s, k, ok, n);
    case Return(k) => ReturnMatches(s, k, n);
  }

  lemma WinnersBefore(n: nat, run: seq<Cluster>, steps: seq<Step>, j: nat)
    requires IsRun(n, run, steps) && OneVotePerTerm(run[|run| - 1]) && j < |run|
    ensures OneWinnerPerTerm(run[j])
  {
    VoteInvHolds(n, run, steps, |run| - 1);
    OneVoteOneWinner(run[|run| - 1], n);
    HistoryGrows(n, run, steps, j, |run| - 1);
  }

  lemma InitialMatchInv(n: nat)
    ensures MatchInv(Initial(n))
  {}

  lemma RunKeepsMatchInv(n: nat, run: seq<Cluster>, steps: seq<Step>, j: nat)
    requires IsRun(n, run, steps) && InSyncAppend(run, steps) && OneVotePerTerm(run[|run| - 1])
    requires 0 < j < |run| && MatchInv(run[j - 1])
    ensures MatchInv(run[j])
  {
    LogInvHolds(n, run, steps, j - 1);
    WinnersBefore(n, run, steps, j - 1);
    WinnersBefore(n, run, steps, j);
    assert StepAt(run, steps, j - 1);
    StepKeepsMatchInv(run[j - 1], steps[j - 1], n);
  }

  lemma {:induction false} MatchInvHolds(n: nat, run: seq<Cluster>, steps: seq<Step>, j: nat)
    requires IsRun(n, run, steps) && InSyncAppend(run, steps) && OneVotePerTerm(run[|run| - 1]) && j < |run|
    ensures MatchInv(run[j])
  {
    if j == 0 {
      InitialMatchInv(n);
    } else {
      MatchInvHolds(n, run, steps, j - 1);
      RunKeepsMatchInv(n, run, steps, j);
    }
  }

  /** Log matching: in a crash-free run satisfying OneVotePerTerm and InSyncAppend, two logs with the
      same term at an index are identical up to that index. */
  lemma LogMatching(n: nat, run: seq<Cluster>, steps: seq<Step>, j: nat, a: nat, b: nat, k: nat)
    requires IsRun(n, run, steps) && InSyncAppend(run, steps) && OneVotePerTerm(run[|run| - 1])
    requires j < |run| && a < n && b < n
    ensures |run[j].nodes| == n
    ensures
      var x, y := run[j].nodes[a].log, run[j].nodes[b].log;
      1 <= k <= |x| && k <= |y| && TermAt(x, k) == TermAt(y, k) ==> x[..k] == y[..k]
  {
    LogInvHolds(n, run, steps, j);
    MatchInvHolds(n, run, steps, j);
    var x, y := run[j].nodes[a].log, run[j].nodes[b].log;
    assert Match(x, y);
    if 1 <= k <= |x| && k <= |y| && TermAt(x, k) == TermAt(y, k) { assert x[..k - 1 + 1] == y[..k - 1 + 1]; }
  }
}
