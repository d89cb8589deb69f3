/** Terms, logs, match indices and commits over all crash-free runs. */
module Replication {
  import opened Messages
  import opened Durable
  import opened Logs
  import opened CommitRule
  import opened Nodes
  import opened Clusters
  import opened Elections

  // ---- Terms (no hypothesis) ----------------------------------------------------------------------

  ghost predicate TermsUpTo(es: seq<LogEntry>, t: nat) {
    forall j :: 0 <= j < |es| ==> es[j].term <= t
  }

  /** No entry is newer than its holder, be it a node or a request. */
  ghost predicate TermInv(s: Cluster) {
    && (forall i :: 0 <= i < |s.nodes| ==> TermsUpTo(s.nodes[i].log, s.nodes[i].term))
    && (forall k :: 0 <= k < |s.calls| && s.calls[k].req.Append? ==>
          TermsUpTo(s.calls[k].req.append.entries, s.calls[k].req.append.term))
  }

  lemma EntriesTerms(a: Node, q: AppendRequest, writeOk: bool)
    requires q.entries != [] && TermsUpTo(a.log, a.term) && TermsUpTo(q.entries, q.term) && q.term <= a.term
    ensures TermsUpTo(OnEntries(a, q, writeOk).0.log, a.term)
  {}

  lemma HandledTerms(n: Node, req: Request, writeOk: bool)
    requires TermsUpTo(n.log, n.term) && (req.Append? ==> TermsUpTo(req.append.entries, req.append.term))
    ensures TermsUpTo(Handled(n, req, writeOk).0.log, Handled(n, req, writeOk).0.term)
  {
    if req.Append? && req.append.term >= n.term {
      var q := req.append;
      var a := Admitted(n, q);
      AppendEffect(a, q, writeOk);
      if q.entries != [] { EntriesTerms(a, q, writeOk); }
    }
  }

  lemma ReturnedLog(n: Node, req: Request, resp: Response)
    requires req.Vote? <==> resp.Voted?
    ensures Returned(n, req, resp).log == n.log
  {}

  lemma StepKeepsTermInv(s: Cluster, t: Step)
    requires TermInv(s) && Enabled(s, t)
    ensures TermInv(Next(s, t))
  {
    var s' := Next(s, t);
    match t
    case Timeout(i) =>
    case Tick(i) => TickTerms(s, i);
    case Client(i, _, _, _, _) => ClientTerms(s, t);
    case Handle(k, ok) => HandledTerms(s.nodes[s.calls[k].to], s.calls[k].req, ok);
    case Return(k) =>
      ReturnedLog(s.nodes[s.calls[k].from], s.calls[k].req, s.calls[k].stage.resp);
      ReturnedEffect(s.nodes[s.calls[k].from], s.calls[k].req, s.calls[k].stage.resp);
  }

  lemma TickTerms(s: Cluster, i: nat)
    requires TermInv(s) && Enabled(s, Tick(i))
    ensures TermInv(OnTick(s, i))
  {
    var m := s.nodes[i];
    forall c | c in ResendCalls(|s.nodes|, i, Resends(m), AppendRequestOf(m))
      ensures c.req.Append? && TermsUpTo(c.req.append.entries, c.req.append.term)
    {}
  }

  lemma ClientTerms(s: Cluster, t: Step)
    requires TermInv(s) && t.Client? && Enabled(s, t)
    ensures TermInv(OnClient(s, t))
  {}

  lemma {:induction false} TermInvHolds(n: nat, run: seq<Cluster>, steps: seq<Step>, j: nat)
    requires IsRun(n, run, steps) && j < |run|
    ensures TermInv(run[j])
  {
    if j == 0 {
    } else {
      TermInvHolds(n, run, steps, j - 1);
      assert StepAt(run, steps, j - 1);
      StepKeepsTermInv(run[j - 1], steps[j - 1]);
    }
  }

  /** One step: terms grow, and a node that leads before and after is in the same term. */
  lemma StepTerms(s: Cluster, t: Step)
    requires Enabled(s, t)
    ensures |Next(s, t).nodes| == |s.nodes|
    ensures forall i :: 0 <= i < |s.nodes| ==>
      && s.nodes[i].term <= Next(s, t).nodes[i].term
      && (s.nodes[i].role == Leader && Next(s, t).nodes[i].role == Leader ==>
            s.nodes[i].term == Next(s, t).nodes[i].term)
  {
    match t
    case Handle(k, ok) => HandledEffect(s.nodes[s.calls[k].to], s.calls[k].req, ok);
    case Return(k) => ReturnedEffect(s.nodes[s.calls[k].from], s.calls[k].req, s.calls[k].stage.resp);
    case _ =>
  }

  lemma {:induction false} RunSize(n: nat, run: seq<Cluster>, steps: seq<Step>, j: nat)
    requires IsRun(n, run, steps) && j < |run|
    ensures |run[j].nodes| == n
  {
    if j == 0 {
    } else {
      RunSize(n, run, steps, j - 1);
      assert StepAt(run, steps, j - 1);
      StepTerms(run[j - 1], steps[j - 1]);
    }
  }

  lemma StepTermsAt(s: Cluster, t: Step, s': Cluster, a: nat)
    requires Enabled(s, t) && s' == Next(s, t) && a < |s.nodes|
    ensures a < |s'.nodes| && s.nodes[a].term <= s'.nodes[a].term
    ensures s.nodes[a].role == Leader && s'.nodes[a].role == Leader ==> s.nodes[a].term == s'.nodes[a].term
  {
    StepTerms(s, t);
  }

  lemma RunStepTerms(n: nat, run: seq<Cluster>, steps: seq<Step>, j: nat, a: nat)
    requires IsRun(n, run, steps) && 0 < j < |run| && a < n
    ensures |run[j - 1].nodes| == |run[j].nodes| == n && run[j - 1].nodes[a].term <= run[j].nodes[a].term
    ensures run[j - 1].nodes[a].role == Leader && run[j].nodes[a].role == Leader ==>
      run[j - 1].nodes[a].term == run[j].nodes[a].term
  {
    RunSize(n, run, steps, j - 1);
    assert StepAt(run, steps, j - 1);
    StepTermsAt(run[j - 1], steps[j - 1], run[j], a);
    RunSize(n, run, steps, j);
  }

  /** Term discipline: a node's term never decreases, and stays the same while the node leads. */
  lemma {:induction false} TermDiscipline(n: nat, run: seq<Cluster>, steps: seq<Step>, i: nat, j: nat, a: nat)
    requires IsRun(n, run, steps) && i <= j < |run| && a < n
    ensures |run[i].nodes| == |run[j].nodes| == n && run[i].nodes[a].term <= run[j].nodes[a].term
    ensures (forall l :: i <= l <= j ==> |run[l].nodes| == n && run[l].nodes[a].role == Leader) ==>
      run[i].nodes[a].term == run[j].nodes[a].term
    decreases j - i
  {
    if i < j {
      RunStepTerms(n, run, steps, j, a);
      TermDiscipline(n, run, steps, i, j - 1, a);
    } else {
      RunSize(n, run, steps, i);
    }
  }

  // ---- Logs under InSyncAppend ----------------------------------------------------------------------

  ghost predicate LogsGrow(s: Cluster, s': Cluster) {
    |s.nodes| == |s'.nodes| && forall i :: 0 <= i < |s.nodes| ==> s.nodes[i].log <= s'.nodes[i].log
  }

  /** An append request is a slice of its sender's log; a vote request names one of its positions. */
  ghost predicate RequestOk(s: Cluster, c: Call)
    requires c.from < |s.nodes|
  {
    var log := s.nodes[c.from].log;
    match c.req
    case Vote(q) => q.lastLogIndex <= |log| && q.lastLogTerm == TermAt(log, q.lastLogIndex)
    case Append(q) =>
      && q.prevIndex + |q.entries| <= |log|
      && q.entries == log[q.prevIndex..q.prevIndex + |q.entries|]
      && q.prevTerm == TermAt(log, q.prevIndex)
  }

  /** The response says that entries were appended, and where the receiver's log ends. */
  predicate Reports(c: Call) {
    && c.req.Append? && c.req.append.entries != []
    && (c.stage.Answered? || c.stage.Done?) && c.stage.resp.Appended? && c.stage.resp.append.success
  }

  ghost predicate ReportOk(s: Cluster, c: Call)
    requires c.from < |s.nodes| && c.to < |s.nodes|
  {
    Reports(c) ==>
      var last := c.stage.resp.append.lastLogIndex;
      last <= |s.nodes[c.from].log| && last <= |s.nodes[c.to].log|
  }

  ghost predicate LogCallOk(s: Cluster, c: Call) {
    c.from < |s.nodes| && c.to < |s.nodes| && RequestOk(s, c) && ReportOk(s, c)
  }

  ghost predicate ProgressOk(s: Cluster, i: nat)
    requires i < |s.nodes|
  {
    var m := s.nodes[i];
    && Contiguous(m.log, 1)
    && m.applied == m.commit <= |m.log|
    && (forall x :: x in m.matchIndex ==>
          x < |s.nodes| && m.matchIndex[x] <= |m.log| && m.matchIndex[x] <= |s.nodes[x].log|)
  }

  ghost predicate LogInv(s: Cluster) {
    && (forall k :: 0 <= k < |s.calls| ==> LogCallOk(s, s.calls[k]))
    && (forall i :: 0 <= i < |s.nodes| ==> ProgressOk(s, i))
  }

  lemma LogCallStaysOk(s: Cluster, s': Cluster, c: Call)
    requires LogCallOk(s, c) && LogsGrow(s, s')
    ensures LogCallOk(s', c)
  {
    var log, log' := s.nodes[c.from].log, s'.nodes[c.from].log;
    assert log == log'[..|log|];
    assert forall i :: 0 <= i < |log| ==> log'[i] == log[i];
    if c.req.Append? {
      var q := c.req.append;
      assert log'[q.prevIndex..q.prevIndex + |q.entries|] == log[q.prevIndex..q.prevIndex + |q.entries|];
    }
  }

  /** Nodes other than i only see their peers' logs grow. */
  lemma OthersKeepProgress(s: Cluster, s': Cluster, i: nat)
    requires LogInv(s) && LogsGrow(s, s') && i < |s.nodes| && s'.nodes == s.nodes[i := s'.nodes[i]]
    ensures forall j :: 0 <= j < |s.nodes| && j != i ==> ProgressOk(s', j)
  {
    forall j | 0 <= j < |s.nodes| && j != i ensures ProgressOk(s', j) { assert ProgressOk(s, j); }
  }

  /** One call moves to a later stage. */
  lemma LogCallsAfter(s: Cluster, s': Cluster, k: nat)
    requires LogInv(s) && LogsGrow(s, s') && k < |s.calls| == |s'.calls| && s'.calls == s.calls[k := s'.calls[k]]
    requires LogCallOk(s', s'.calls[k])
    ensures forall l :: 0 <= l < |s'.calls| ==> LogCallOk(s', s'.calls[l])
  {
    forall l | 0 <= l < |s'.calls| ensures LogCallOk(s', s'.calls[l]) {
      if l != k { LogCallStaysOk(s, s', s.calls[l]); }
    }
  }

  lemma NewLogCalls(s: Cluster, s': Cluster, calls: seq<Call>)
    requires LogInv(s) && LogsGrow(s, s') && s'.calls == s.calls + calls
    requires forall c :: c in calls ==> LogCallOk(s', c)
    ensures forall k :: 0 <= k < |s'.calls| ==> LogCallOk(s', s'.calls[k])
  {
    forall k | 0 <= k < |s'.calls| ensures LogCallOk(s', s'.calls[k]) {
      if k < |s.calls| { LogCallStaysOk(s, s', s.calls[k]); } else { assert s'.calls[k] == calls[k - |s.calls|]; }
    }
  }

  // ---- Handlers, on in-sync requests ------------------------------------------------------------------

  lemma ApplyKeepsProgress(n: Node, leaderCommit: nat)
    requires n.applied == n.commit <= |n.log|
    ensures
      var m := ApplyCommitted(if leaderCommit > n.commit then RaiseCommit(n, leaderCommit) else n);
      m.applied == m.commit <= |m.log| && m.commit >= n.commit && m.log == n.log && m.matchIndex == n.matchIndex
  {}

  lemma EntriesInSync(a: Node, q: AppendRequest, writeOk: bool)
    requires q.entries != [] && a.applied == a.commit <= |a.log|
    requires q.prevIndex <= |a.log| ==> InSync(a.log, q.prevIndex, q.prevTerm)
    ensures
      var (m, r) := OnEntries(a, q, writeOk);
      && m.matchIndex == a.matchIndex && m.applied == m.commit <= |m.log|
      && (r.success <==> writeOk && q.prevIndex <= |a.log|)
      && m.log == (if r.success then a.log + q.entries else a.log)
      && (r.success ==> r.lastLogIndex == |m.log|)
  {
    if q.prevIndex <= |a.log| {
      InSyncExtends(a.log, q.prevIndex, q.prevTerm, q.entries);
      ApplyKeepsProgress(a.(log := a.log + q.entries, disk := PutBatch(a.disk, q.entries)), q.leaderCommit);
    }
  }

  lemma HandledInSync(n: Node, req: Request, writeOk: bool)
    requires n.applied == n.commit <= |n.log|
    requires req.Append? && Accepts(n, req.append) ==> InSync(n.log, req.append.prevIndex, req.append.prevTerm)
    ensures
      var (m, r) := Handled(n, req, writeOk);
      var appended := req.Append? && req.append.entries != [] && r.append.success;
      && m.matchIndex == n.matchIndex && m.applied == m.commit <= |m.log|
      && m.log == (if appended then n.log + req.append.entries else n.log)
      && (appended ==> Accepts(n, req.append) && r.append.lastLogIndex == |m.log|)
  {
    if req.Append? && req.append.term >= n.term {
      var q := req.append;
      var a := Admitted(n, q);
      if q.entries != [] { EntriesInSync(a, q, writeOk); } else { ApplyKeepsProgress(a, q.leaderCommit); }
    }
  }

  /** What a callback may leave in the match map at x: an old value, 0, or the reported log end. */
  ghost predicate MatchFrom(n: Node, m: Node, req: Request, resp: Response, x: nat)
    requires x in m.matchIndex
  {
    || (x in n.matchIndex && m.matchIndex[x] == n.matchIndex[x])
    || (resp.Appended? && x == resp.append.memberId && m.matchIndex[x] == 0)
    || (resp.Appended? && req.Append? && x == resp.append.memberId && resp.append.success
        && req.append.entries != [] && m.matchIndex[x] == resp.append.lastLogIndex)
  }

  lemma TrackedProgress(n: Node, r: AppendResponse)
    requires n.role == Leader && r.term == n.term && r.success
    ensures
      var m := OnAppendResponse(n, r);
      var was := Tracked(n.matchIndex, r.memberId);
      && m.log == n.log
      && (if was[r.memberId] < r.lastLogIndex then
            && m.matchIndex == was[r.memberId := r.lastLogIndex]
            && m.applied == m.commit == CommitPoint(m.matchIndex)
            && exists x :: x in m.matchIndex && m.matchIndex[x] == m.commit
          else
            m.matchIndex == was && m.commit == n.commit && m.applied == n.applied)
  {
    var was := Tracked(n.matchIndex, r.memberId);
    var u := was[r.memberId := r.lastLogIndex];
    assert r.memberId in u;
    if was[r.memberId] < r.lastLogIndex { SomeoneIsThere(u, CommitPoint(u)); }
  }

  /** A leader's append succeeded: the response comes from an append of its own term that succeeded. */
  predicate Succeeded(n: Node, req: Request, resp: Response)
    requires req.Vote? <==> resp.Voted?
  {
    resp.Appended? && req.append.entries != [] && resp.append.success && n.role == Leader && resp.append.term == n.term
  }

  lemma UnrecordedProgress(n: Node, req: Request, resp: Response)
    requires (req.Vote? <==> resp.Voted?) && !Succeeded(n, req, resp)
    ensures
      var m := Returned(n, req, resp);
      m.log == n.log && m.matchIndex == n.matchIndex && m.commit == n.commit && m.applied == n.applied
  {}

  /** A callback changes no log, and commits only what some tracked member has reached. */
  lemma ReturnedProgress(n: Node, req: Request, resp: Response)
    requires req.Vote? <==> resp.Voted?
    ensures
      var m := Returned(n, req, resp);
      && m.log == n.log
      && (forall x :: x in m.matchIndex ==> MatchFrom(n, m, req, resp, x))
      && ((m.commit == n.commit && m.applied == n.applied)
          || (m.applied == m.commit && exists x :: x in m.matchIndex && m.matchIndex[x] == m.commit))
  {
    if Succeeded(n, req, resp) {
      TrackedProgress(n, resp.append);
      assert Returned(n, req, resp) == OnAppendResponse(n, resp.append);
    } else {
      UnrecordedProgress(n, req, resp);
    }
  }

  // ---- Steps ---------------------------------------------------------------------------------------------

  lemma TimeoutLogs(s: Cluster, i: nat)
    requires LogInv(s) && Enabled(s, Timeout(i))
    ensures LogInv(OnTimeout(s, i)) && LogsGrow(s, OnTimeout(s, i))
  {
    var s' := OnTimeout(s, i);
    OthersKeepProgress(s, s', i);
    assert ProgressOk(s, i);
    NewLogCalls(s, s', Broadcast(|s.nodes|, i, Vote(VoteRequestOf(s'.nodes[i]))));
  }

  lemma ResendIsSlice(n: Node, m: nat)
    requires Lags(n, m)
    ensures
      var q := ResendRequest(n, m);
      && q.prevIndex + |q.entries| == |n.log| && q.entries != []
      && q.entries == n.log[q.prevIndex..q.prevIndex + |q.entries|] && q.prevTerm == TermAt(n.log, q.prevIndex)
  {}

  lemma ResendCallOk(s: Cluster, i: nat, m: Node, c: Call)
    requires i < |s.nodes| && s.nodes[i].log == m.log && c.from == i && c.to < |s.nodes| && !Reports(c)
    requires c.req == Append(AppendRequestOf(m)) || (Lags(m, c.to) && c.req == Append(ResendRequest(m, c.to)))
    ensures LogCallOk(s, c)
  {
    if Lags(m, c.to) { ResendIsSlice(m, c.to); }
  }

  lemma ResendCallAt(n: nat, i: nat, m: Node, k: nat)
    requires k < n
    ensures
      var c := ResendCalls(n, i, Resends(m), AppendRequestOf(m))[k];
      && c.from == i && c.to == k && !Reports(c)
      && (c.req == Append(AppendRequestOf(m)) || (Lags(m, k) && c.req == Append(ResendRequest(m, k))))
  {}

  lemma ResendCallsOk(s: Cluster, i: nat, m: Node)
    requires i < |s.nodes| && s.nodes[i].log == m.log
    ensures forall c :: c in ResendCalls(|s.nodes|, i, Resends(m), AppendRequestOf(m)) ==> LogCallOk(s, c)
  {
    var calls := ResendCalls(|s.nodes|, i, Resends(m), AppendRequestOf(m));
    forall c | c in calls ensures LogCallOk(s, c) {
      var k :| 0 <= k < |calls| && calls[k] == c;
      ResendCallAt(|s.nodes|, i, m, k);
      ResendCallOk(s, i, m, c);
    }
  }

  lemma HeartbeatCallsOk(s: Cluster, i: nat, m: Node)
    requires i < |s.nodes| && s.nodes[i].log == m.log
    ensures forall c :: c in Broadcast(|s.nodes|, i, Append(AppendRequestOf(m))) ==> LogCallOk(s, c)
  {
    var calls := Broadcast(|s.nodes|, i, Append(AppendRequestOf(m)));
    forall k | 0 <= k < |s.nodes| ensures LogCallOk(s, calls[k]) { ResendCallOk(s, i, m, calls[k]); }
  }

  lemma TickLogs(s: Cluster, i: nat)
    requires LogInv(s) && Enabled(s, Tick(i))
    ensures LogInv(OnTick(s, i)) && LogsGrow(s, OnTick(s, i))
  {
    var s' := OnTick(s, i);
    var n, m := |s.nodes|, s.nodes[i];
    OthersKeepProgress(s, s', i);
    assert ProgressOk(s, i) && ProgressOk(s', i);
    ResendCallsOk(s', i, m);
    HeartbeatCallsOk(s', i, m);
    NewLogCalls(s, s', ResendCalls(n, i, Resends(m), AppendRequestOf(m)) + Broadcast(n, i, Append(AppendRequestOf(m))));
  }

  /** A logged command goes out as a slice of the log that it ends. */
  lemma KvLogged(n: Node, c: Command, session: nat, requestId: nat, writeOk: bool)
    ensures
      var (m, outcome) := OnKvRequest(n, c, session, requestId, writeOk);
      if n.role == Leader && writeOk then
        && outcome.Deferred? && m.log == n.log + [LogEntry(n.term, |n.log| + 1, c)]
        && m.matchIndex == n.matchIndex[n.id := |n.log| + 1] && m.applied == n.applied && m.commit == n.commit
        && outcome.request.prevIndex == |n.log| && outcome.request.prevTerm == TermAt(m.log, |n.log|)
        && outcome.request.entries == [m.log[|n.log|]] == m.log[|n.log|..|n.log| + 1]
      else m == n && !outcome.Deferred?
  {
    var m := OnKvRequest(n, c, session, requestId, writeOk).0;
    if n.role == Leader && writeOk {
      assert m.log[|n.log|..|n.log| + 1] == [m.log[|n.log|]];
      if |n.log| > 0 { assert m.log[|m.log| - 2] == m.log[|n.log| - 1]; }
    }
  }

  lemma ClientCallsOk(s: Cluster, i: nat, q: AppendRequest)
    requires i < |s.nodes| && |s.nodes[i].log| == q.prevIndex + 1 && q.prevTerm == TermAt(s.nodes[i].log, q.prevIndex)
    requires q.entries == s.nodes[i].log[q.prevIndex..q.prevIndex + 1]
    ensures forall c :: c in Broadcast(|s.nodes|, i, Append(q)) ==> LogCallOk(s, c)
  {}

  lemma ClientLogs(s: Cluster, t: Step)
    requires LogInv(s) && t.Client? && Enabled(s, t)
    requires forall i :: 0 <= i < |s.nodes| ==> s.nodes[i].id == i
    ensures LogInv(OnClient(s, t)) && LogsGrow(s, OnClient(s, t))
  {
    var s' := OnClient(s, t);
    KvLogged(s.nodes[t.i], t.command, t.session, t.requestId, t.writeOk);
    var (m, outcome) := OnKvRequest(s.nodes[t.i], t.command, t.session, t.requestId, t.writeOk);
    OthersKeepProgress(s, s', t.i);
    assert ProgressOk(s, t.i) && ProgressOk(s', t.i);
    if outcome.Deferred? {
      ClientCallsOk(s', t.i, outcome.request);
      NewLogCalls(s, s', Broadcast(|s.nodes|, t.i, Append(outcome.request)));
    }
  }

  lemma HandledProgress(s: Cluster, k: nat, writeOk: bool)
    requires LogInv(s) && Enabled(s, Handle(k, writeOk)) && StepInSync(s, Handle(k, writeOk))
    ensures LogsGrow(s, OnHandle(s, k, writeOk)) && ProgressOk(OnHandle(s, k, writeOk), s.calls[k].to)
  {
    var c := s.calls[k];
    assert ProgressOk(s, c.to) && LogCallOk(s, c) && ProgressOk(s, c.from);
    HandledInSync(s.nodes[c.to], c.req, writeOk);
    HandledStaysIndexed(s, c, writeOk);
  }

  lemma HandledCallOk(s: Cluster, k: nat, writeOk: bool)
    requires LogInv(s) && Enabled(s, Handle(k, writeOk)) && StepInSync(s, Handle(k, writeOk))
    requires LogsGrow(s, OnHandle(s, k, writeOk))
    ensures LogCallOk(OnHandle(s, k, writeOk), OnHandle(s, k, writeOk).calls[k])
  {
    var c := s.calls[k];
    assert ProgressOk(s, c.to) && LogCallOk(s, c);
    HandledInSync(s.nodes[c.to], c.req, writeOk);
    LogCallStaysOk(s, OnHandle(s, k, writeOk), c);
  }

  lemma HandleLogs(s: Cluster, k: nat, writeOk: bool)
    requires LogInv(s) && Enabled(s, Handle(k, writeOk)) && StepInSync(s, Handle(k, writeOk))
    ensures LogInv(OnHandle(s, k, writeOk)) && LogsGrow(s, OnHandle(s, k, writeOk))
  {
    var s' := OnHandle(s, k, writeOk);
    HandledProgress(s, k, writeOk);
    HandledCallOk(s, k, writeOk);
    OthersKeepProgress(s, s', s.calls[k].to);
    LogCallsAfter(s, s', k);
  }

  lemma HandledStaysIndexed(s: Cluster, c: Call, writeOk: bool)
    requires LogCallOk(s, c) && ProgressOk(s, c.from) && ProgressOk(s, c.to)
    requires c.req.Append? && Accepts(s.nodes[c.to], c.req.append) ==>
      InSync(s.nodes[c.to].log, c.req.append.prevIndex, c.req.append.prevTerm)
    ensures Contiguous(Handled(s.nodes[c.to], c.req, writeOk).0.log, 1)
  {
    HandledInSync(s.nodes[c.to], c.req, writeOk);
    if c.req.Append? {
      var q, log := c.req.append, s.nodes[c.from].log;
      assert forall j :: 0 <= j < |q.entries| ==> q.entries[j] == log[q.prevIndex + j];
    }
  }

  lemma ReturnedMatches(s: Cluster, k: nat)
    requires LogInv(s) && Enabled(s, Return(k)) && CallOk(s, s.calls[k])
    ensures LogsGrow(s, OnReturn(s, k)) && ProgressOk(OnReturn(s, k), s.calls[k].from)
  {
    var s' := OnReturn(s, k);
    var c := s.calls[k];
    var n, m := s.nodes[c.from], s'.nodes[c.from];
    assert ProgressOk(s, c.from) && LogCallOk(s, c);
    ReturnedProgress(n, c.req, c.stage.resp);
    forall x | x in m.matchIndex
      ensures x < |s'.nodes| && m.matchIndex[x] <= |m.log| && m.matchIndex[x] <= |s'.nodes[x].log|
    {
      assert MatchFrom(n, m, c.req, c.stage.resp, x);
    }
  }

  lemma ReturnLogs(s: Cluster, k: nat)
    requires LogInv(s) && Enabled(s, Return(k)) && CallOk(s, s.calls[k])
    ensures LogInv(OnReturn(s, k)) && LogsGrow(s, OnReturn(s, k))
  {
    var s' := OnReturn(s, k);
    ReturnedMatches(s, k);
    OthersKeepProgress(s, s', s.calls[k].from);
    LogCallStaysOk(s, s', s.calls[k]);
    LogCallsAfter(s, s', k);
  }

  lemma StepKeepsLogInv(s: Cluster, t: Step, n: nat)
    requires VoteInv(s, n) && LogInv(s) && Enabled(s, t) && StepInSync(s, t)
    ensures LogInv(Next(s, t)) && LogsGrow(s, Next(s, t))
  {
    match t
    case Timeout(i) => TimeoutLogs(s, i);
    case Tick(i) => TickLogs(s, i);
    case Client(_, _, _, _, _) => ClientLogs(s, t);
    case Handle(k, ok) => HandleLogs(s, k, ok);
    case Return(k) => ReturnLogs(s, k);
  }

  lemma {:induction false} LogInvHolds(n: nat, run: seq<Cluster>, steps: seq<Step>, j: nat)
    requires IsRun(n, run, steps) && InSyncAppend(run, steps) && j < |run|
    ensures VoteInv(run[j], n) && LogInv(run[j])
  {
    VoteInvHolds(n, run, steps, j);
    if j == 0 {
    } else {
      LogInvHolds(n, run, steps, j - 1);
      assert StepAt(run, steps, j - 1);
      StepKeepsLogInv(run[j - 1], steps[j - 1], n);
    }
  }

  lemma StepGrowsLogs(n: nat, run: seq<Cluster>, steps: seq<Step>, j: nat)
    requires IsRun(n, run, steps) && InSyncAppend(run, steps) && j < |steps|
    ensures LogsGrow(run[j], run[j + 1])
  {
    LogInvHolds(n, run, steps, j);
    assert StepAt(run, steps, j);
    StepKeepsLogInv(run[j], steps[j], n);
  }

  lemma {:induction false} LogsOnlyGrow(n: nat, run: seq<Cluster>, steps: seq<Step>, i: nat, j: nat)
    requires IsRun(n, run, steps) && InSyncAppend(run, steps) && i <= j < |run|
    ensures LogsGrow(run[i], run[j])
    decreases j - i
  {
    if i == j {
    } else {
      LogsOnlyGrow(n, run, steps, i, j - 1);
      StepGrowsLogs(n, run, steps, j - 1);
    }
  }
}
