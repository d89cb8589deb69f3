/** Vote counting and election safety, in every crash-free run. */
module Elections {
  import opened Messages
  import opened Nodes
  import opened Clusters

  // ---- What one handler does to a node's role and term ----------------------------------------

  /** The node keeps its term, role and vote count, or follows in a higher term. */
  ghost predicate Quiet(n: Node, m: Node) {
    && m.id == n.id && m.peers == n.peers && m.term >= n.term
    && (m.term == n.term ==> m.role == n.role && m.votes == n.votes)
    && (m.term > n.term ==> m.role == Follower)
  }

  /** Handling an append request beyond the term test touches neither role, term nor votes. */
  lemma AppendEffect(a: Node, q: AppendRequest, writeOk: bool)
    ensures
      var (m, r) := if q.entries == [] then OnHeartbeat(a, q) else OnEntries(a, q, writeOk);
      && m.id == a.id && m.peers == a.peers && m.term == a.term && m.role == a.role && m.votes == a.votes
      && r.memberId == a.id && r.term == a.term
  {}

  lemma HandledEffect(n: Node, req: Request, writeOk: bool)
    ensures
      var (m, r) := Handled(n, req, writeOk);
      && Quiet(n, m) && m.term == (if TermOf(req) > n.term then TermOf(req) else n.term)
      && (r.Voted? <==> req.Vote?)
      && (r.Voted? ==> r.vote.memberId == n.id && r.vote.term == m.term)
      && (r.Voted? && r.vote.granted ==> m.term == TermOf(req))
      && (r.Appended? ==> r.append.memberId == n.id && r.append.term == m.term)
      && (r.Appended? && r.append.success ==> m.term == TermOf(req))
  {
    if req.Append? && req.append.term >= n.term {
      var q := req.append;
      var a := Admitted(n, q);
      AppendEffect(a, q, writeOk);
    }
  }

  lemma VotedEffect(n: Node, r: VoteResponse)
    ensures
      var m := OnVoteResponse(n, r);
      && m.id == n.id && m.peers == n.peers && m.term >= n.term
      && (!Counts(n, Voted(r)) ==> Quiet(n, m))
      && (Counts(n, Voted(r)) ==>
            && m.term == n.term
            && (if n.votes + 1 > n.peers / 2 && n.role == Candidate then m.role == Leader
                else m.role == n.role && m.votes == n.votes + 1))
  {}

  lemma AppendedEffect(n: Node, r: AppendResponse)
    ensures Quiet(n, OnAppendResponse(n, r)) && Quiet(n, OnHeartbeatResponse(n, r))
  {}

  lemma ReturnedEffect(n: Node, req: Request, resp: Response)
    requires req.Vote? <==> resp.Voted?
    ensures
      var m := Returned(n, req, resp);
      && m.id == n.id && m.peers == n.peers && m.term >= n.term
      && (!Counts(n, resp) ==> Quiet(n, m))
      && (Counts(n, resp) ==> m.term == n.term)
      && (Counts(n, resp) && n.votes + 1 > n.peers / 2 && n.role == Candidate ==> m.role == Leader)
      && (Counts(n, resp) && !(n.votes + 1 > n.peers / 2 && n.role == Candidate) ==>
            m.role == n.role && m.votes == n.votes + 1)
  {
    match resp
    case Voted(r) => VotedEffect(n, r);
    case Appended(r) => AppendedEffect(n, r);
  }

  function TermIn(resp: Response): nat {
    match resp case Voted(r) => r.term case Appended(r) => r.term
  }

  /** A caller that leads, before or after its callback, is in the response's term by then, or in a later one;
      and it leads on only if the response is of no later term than its own. */
  lemma LeaderCatchesUp(s: Cluster, k: nat)
    requires Enabled(s, Return(k))
    ensures
      var n, m, t := s.nodes[s.calls[k].from], OnReturn(s, k).nodes[s.calls[k].from], TermIn(s.calls[k].stage.resp);
      && (n.role == Leader || m.role == Leader ==> m.term >= t)
      && (n.role == Leader ==> (m.role == Leader <==> t <= n.term))
      && (n.role == Leader && t > n.term ==> m.role == Follower && m.term == t)
  {}

  // ---- The invariant ----------------------------------------------------------------------------

  ghost predicate Shape(s: Cluster, n: nat) {
    |s.nodes| == n && forall i :: 0 <= i < n ==> s.nodes[i].id == i && s.nodes[i].peers == n
  }

  /** Terms and senders in a call agree with the nodes; positive responses carry the request's term. */
  ghost predicate CallOk(s: Cluster, c: Call) {
    && c.from < |s.nodes| && c.to < |s.nodes|
    && (c.from == c.to ==> c.stage == Unsent)
    && TermOf(c.req) <= s.nodes[c.from].term
    && (c.req.Vote? ==> c.req.vote.candidateId == c.from && (c.from, c.req.vote.term) in s.backers)
    && (c.stage.Answered? || c.stage.Done? ==> ResponseOk(s, c, c.stage.resp))
  }

  ghost predicate ResponseOk(s: Cluster, c: Call, r: Response)
    requires c.to < |s.nodes|
  {
    && (r.Voted? <==> c.req.Vote?)
    && (r.Voted? ==> r.vote.memberId == c.to && r.vote.term <= s.nodes[c.to].term)
    && (r.Voted? && r.vote.granted ==> r.vote.term == TermOf(c.req))
    && (r.Appended? ==> r.append.memberId == c.to && r.append.term <= s.nodes[c.to].term)
    && (r.Appended? && r.append.success ==> r.append.term == TermOf(c.req))
  }

  ghost predicate CallsOk(s: Cluster) {
    forall k :: 0 <= k < |s.calls| ==> CallOk(s, s.calls[k])
  }

  predicate SameBallot(c: Call, d: Call) {
    c.req.Vote? && d.req.Vote? && c.from == d.from && c.to == d.to && c.req.vote.term == d.req.vote.term
  }

  /** A candidate asks each member once per term. */
  ghost predicate Unique(s: Cluster) {
    forall k, l :: 0 <= k < l < |s.calls| ==> !SameBallot(s.calls[k], s.calls[l])
  }

  ghost predicate CandidacyOk(s: Cluster, c: nat, t: nat)
    requires (c, t) in s.backers
  {
    && c < |s.nodes| && t <= s.nodes[c].term
    && (t == s.nodes[c].term ==> s.nodes[c].role != Follower)
    && c in s.backers[(c, t)]
    && (forall v: nat :: v in s.backers[(c, t)] ==> v < |s.nodes| && Supports(s, v, c, t))
  }

  ghost predicate BackersOk(s: Cluster) {
    forall c: nat, t: nat :: (c, t) in s.backers ==> CandidacyOk(s, c, t)
  }

  /** A vote whose response is still to come has not been counted. */
  ghost predicate FreshOk(s: Cluster) {
    forall k :: 0 <= k < |s.calls| && s.calls[k].req.Vote?
                && !s.calls[k].stage.Done? && s.calls[k].from != s.calls[k].to ==>
      (s.calls[k].from, s.calls[k].req.vote.term) in s.backers ==>
      s.calls[k].to !in s.backers[(s.calls[k].from, s.calls[k].req.vote.term)]
  }

  ghost predicate RoleOk(s: Cluster, i: nat)
    requires i < |s.nodes|
  {
    var m := s.nodes[i];
    && (m.role == Candidate ==>
          (i, m.term) in s.backers && m.votes == |s.backers[(i, m.term)]| && (i, m.term) !in s.won)
    && (m.role == Leader ==> (i, m.term) in s.won)
  }

  ghost predicate RolesOk(s: Cluster) {
    forall i :: 0 <= i < |s.nodes| ==> RoleOk(s, i)
  }

  /** Every winner has been backed by a strict majority. */
  ghost predicate WonOk(s: Cluster) {
    forall c: nat, t: nat :: (c, t) in s.won ==> (c, t) in s.backers && 2 * |s.backers[(c, t)]| > |s.nodes|
  }

  ghost predicate VoteInv(s: Cluster, n: nat) {
    Shape(s, n) && CallsOk(s) && Unique(s) && BackersOk(s) && FreshOk(s) && RolesOk(s) && WonOk(s)
  }

  lemma InitialVoteInv(n: nat)
    ensures VoteInv(Initial(n), n)
  {}

  // ---- Steps that count no vote and start no election --------------------------------------------

  /** Node i changes quietly; calls keep their ballots, and at most one moves to a later stage. */
  ghost predicate QuietStep(s: Cluster, s': Cluster, i: nat) {
    && i < |s.nodes| == |s'.nodes| && s'.nodes == s.nodes[i := s'.nodes[i]] && Quiet(s.nodes[i], s'.nodes[i])
    && s'.backers == s.backers && s'.won == s.won
    && |s.calls| <= |s'.calls|
    && (forall k :: 0 <= k < |s.calls| ==> CallAdvances(s.calls[k], s'.calls[k]))
    && (forall k :: |s.calls| <= k < |s'.calls| ==> s'.calls[k].req.Append?)
  }

  ghost predicate CallAdvances(c: Call, d: Call) {
    && d.from == c.from && d.to == c.to && d.req == c.req
    && (c.stage.Done? ==> d.stage == c.stage)
    && (IsGrant(c) ==> IsGrant(d))
  }

  lemma SupportsGrows(s: Cluster, s': Cluster)
    requires |s.calls| <= |s'.calls| && s.backers.Keys <= s'.backers.Keys
    requires forall k :: 0 <= k < |s.calls| ==> CallAdvances(s.calls[k], s'.calls[k])
    ensures forall v: nat, c: nat, t: nat :: Supports(s, v, c, t) ==> Supports(s', v, c, t)
  {
    forall v: nat, c: nat, t: nat | Supports(s, v, c, t) ensures Supports(s', v, c, t) {
      if !(v == c && (c, t) in s.backers) {
        var k: nat :| GrantAt(s, k, v, c, t);
        assert CallAdvances(s.calls[k], s'.calls[k]);
        assert GrantAt(s', k, v, c, t);
      }
    }
  }

  lemma QuietKeepsVotes(s: Cluster, s': Cluster, i: nat, n: nat)
    requires VoteInv(s, n) && QuietStep(s, s', i)
    ensures Shape(s', n) && Unique(s') && BackersOk(s') && FreshOk(s') && RolesOk(s') && WonOk(s')
  {
    SupportsGrows(s, s');
    forall k, l | 0 <= k < l < |s'.calls| ensures !SameBallot(s'.calls[k], s'.calls[l]) {
      if l < |s.calls| {
        assert CallAdvances(s.calls[k], s'.calls[k]) && CallAdvances(s.calls[l], s'.calls[l]);
        assert !SameBallot(s.calls[k], s.calls[l]);
      }
    }
    forall c: nat, t: nat | (c, t) in s'.backers ensures CandidacyOk(s', c, t) { assert CandidacyOk(s, c, t); }
    forall j | 0 <= j < |s'.nodes| ensures RoleOk(s', j) { assert RoleOk(s, j); }
    forall k | 0 <= k < |s.calls| ensures s'.calls[k].req == s.calls[k].req {
      assert CallAdvances(s.calls[k], s'.calls[k]);
    }
  }

  ghost predicate TermsGrow(s: Cluster, s': Cluster) {
    && |s.nodes| == |s'.nodes| && s.backers.Keys <= s'.backers.Keys
    && forall i :: 0 <= i < |s.nodes| ==> s.nodes[i].term <= s'.nodes[i].term
  }

  lemma CallStaysOk(s: Cluster, s': Cluster, c: Call)
    requires CallOk(s, c) && TermsGrow(s, s')
    ensures CallOk(s', c)
  {}

  lemma BroadcastOk(s: Cluster, i: nat, req: Request)
    requires i < |s.nodes| && TermOf(req) <= s.nodes[i].term
    requires req.Vote? ==> req.vote.candidateId == i && (i, req.vote.term) in s.backers
    ensures forall c :: c in Broadcast(|s.nodes|, i, req) ==> CallOk(s, c) && c.req == req
  {}

  lemma ResendsOk(s: Cluster, i: nat, m: Node, heartbeat: AppendRequest)
    requires i < |s.nodes| && m.term <= s.nodes[i].term && heartbeat.term <= s.nodes[i].term
    ensures forall c :: c in ResendCalls(|s.nodes|, i, Resends(m), heartbeat) ==> CallOk(s, c) && c.req.Append?
  {}

  lemma TickKeeps(s: Cluster, i: nat, n: nat)
    requires VoteInv(s, n) && Enabled(s, Tick(i))
    ensures VoteInv(OnTick(s, i), n)
  {
    var s' := OnTick(s, i);
    var m, heartbeat := s.nodes[i], AppendRequestOf(s.nodes[i]);
    var resends, beats := ResendCalls(n, i, Resends(m), heartbeat), Broadcast(n, i, Append(heartbeat));
    ResendsOk(s', i, m, heartbeat);
    BroadcastOk(s', i, Append(heartbeat));
    NewCallsOk(s, s', resends + beats);
    QuietKeepsVotes(s, s', i, n);
  }

  lemma NewCallsOk(s: Cluster, s': Cluster, calls: seq<Call>)
    requires CallsOk(s) && TermsGrow(s, s') && s'.calls == s.calls + calls
    requires forall c :: c in calls ==> CallOk(s', c)
    ensures CallsOk(s')
  {
    forall k | 0 <= k < |s'.calls| ensures CallOk(s', s'.calls[k]) {
      if k < |s.calls| { CallStaysOk(s, s', s.calls[k]); } else { assert s'.calls[k] == calls[k - |s.calls|]; }
    }
  }

  lemma ClientKeeps(s: Cluster, t: Step, n: nat)
    requires VoteInv(s, n) && t.Client? && Enabled(s, t)
    ensures VoteInv(OnClient(s, t), n)
  {
    var s' := OnClient(s, t);
    var (m, outcome) := OnKvRequest(s.nodes[t.i], t.command, t.session, t.requestId, t.writeOk);
    QuietKeepsVotes(s, s', t.i, n);
    if outcome.Deferred? { BroadcastOk(s', t.i, Append(outcome.request)); }
    forall k | 0 <= k < |s'.calls| ensures CallOk(s', s'.calls[k]) {
      if k < |s.calls| {
        CallStaysOk(s, s', s.calls[k]);
      } else {
        assert s'.calls[k] in Broadcast(n, t.i, Append(outcome.request));
      }
    }
  }

  lemma HandleKeeps(s: Cluster, k: nat, writeOk: bool, n: nat)
    requires VoteInv(s, n) && Enabled(s, Handle(k, writeOk))
    ensures VoteInv(OnHandle(s, k, writeOk), n)
  {
    var s' := OnHandle(s, k, writeOk);
    var c := s.calls[k];
    HandledEffect(s.nodes[c.to], c.req, writeOk);
    QuietKeepsVotes(s, s', c.to, n);
    forall l | 0 <= l < |s'.calls| ensures CallOk(s', s'.calls[l]) { CallStaysOk(s, s', s.calls[l]); }
  }

  lemma UncountedReturnKeeps(s: Cluster, k: nat, n: nat)
    requires VoteInv(s, n) && Enabled(s, Return(k)) && !Counts(s.nodes[s.calls[k].from], s.calls[k].stage.resp)
    ensures VoteInv(OnReturn(s, k), n)
  {
    var s' := OnReturn(s, k);
    var c := s.calls[k];
    ReturnedEffect(s.nodes[c.from], c.req, c.stage.resp);
    QuietKeepsVotes(s, s', c.from, n);
    forall l | 0 <= l < |s'.calls| ensures CallOk(s', s'.calls[l]) { CallStaysOk(s, s', s.calls[l]); }
  }

  /** A counted vote is a new one, for the candidate's present term. */
  lemma CountedIsFresh(s: Cluster, k: nat, n: nat)
    requires VoteInv(s, n) && Enabled(s, Return(k)) && Counts(s.nodes[s.calls[k].from], s.calls[k].stage.resp)
    ensures
      var c := s.calls[k];
      var m := s.nodes[c.from];
      && c.from != c.to && c.req.vote.term == m.term && m.role == Candidate
      && (c.from, m.term) in s.backers && c.to !in s.backers[(c.from, m.term)]
  {
    var c := s.calls[k];
    assert CallOk(s, c);
    assert CandidacyOk(s, c.from, s.nodes[c.from].term);
  }

  /** The vote count, and the majority behind a win. */
  lemma CountedKeepsRoles(s: Cluster, k: nat, n: nat)
    requires VoteInv(s, n) && Enabled(s, Return(k)) && Counts(s.nodes[s.calls[k].from], s.calls[k].stage.resp)
    ensures RolesOk(OnReturn(s, k)) && WonOk(OnReturn(s, k)) && Shape(OnReturn(s, k), n)
  {
    var s' := OnReturn(s, k);
    var c := s.calls[k];
    var m := s.nodes[c.from];
    CountedIsFresh(s, k, n);
    ReturnedEffect(m, c.req, c.stage.resp);
    assert RoleOk(s, c.from);
    assert s'.backers[(c.from, m.term)] == s.backers[(c.from, m.term)] + {c.to};
    forall j | 0 <= j < n ensures RoleOk(s', j) { assert RoleOk(s, j); }
  }

  lemma CountedKeepsBackers(s: Cluster, k: nat, n: nat)
    requires VoteInv(s, n) && Enabled(s, Return(k)) && Counts(s.nodes[s.calls[k].from], s.calls[k].stage.resp)
    ensures BackersOk(OnReturn(s, k)) && Unique(OnReturn(s, k))
  {
    var s' := OnReturn(s, k);
    var c := s.calls[k];
    var m := s.nodes[c.from];
    CountedIsFresh(s, k, n);
    ReturnedEffect(m, c.req, c.stage.resp);
    SupportsGrows(s, s');
    assert GrantAt(s', k, c.to, c.from, m.term);
    forall d: nat, t: nat | (d, t) in s'.backers ensures CandidacyOk(s', d, t) { assert CandidacyOk(s, d, t); }
    forall a, b | 0 <= a < b < |s'.calls| ensures !SameBallot(s'.calls[a], s'.calls[b]) {
      assert !SameBallot(s.calls[a], s.calls[b]);
    }
  }

  lemma CountedReturnKeeps(s: Cluster, k: nat, n: nat)
    requires VoteInv(s, n) && Enabled(s, Return(k)) && Counts(s.nodes[s.calls[k].from], s.calls[k].stage.resp)
    ensures VoteInv(OnReturn(s, k), n)
  {
    var s' := OnReturn(s, k);
    var c := s.calls[k];
    ReturnedEffect(s.nodes[c.from], c.req, c.stage.resp);
    forall l | 0 <= l < |s'.calls| ensures CallOk(s', s'.calls[l]) { CallStaysOk(s, s', s.calls[l]); }
    CountedKeepsRoles(s, k, n);
    CountedKeepsBackers(s, k, n);
    CountedKeepsFresh(s, k, n);
  }

  lemma CountedKeepsFresh(s: Cluster, k: nat, n: nat)
    requires VoteInv(s, n) && Enabled(s, Return(k)) && Counts(s.nodes[s.calls[k].from], s.calls[k].stage.resp)
    ensures FreshOk(OnReturn(s, k))
  {
    CountedIsFresh(s, k, n);
    forall l | 0 <= l < |s.calls| && l != k ensures !SameBallot(s.calls[l], s.calls[k]) {
      if l < k { assert !SameBallot(s.calls[l], s.calls[k]); } else { assert !SameBallot(s.calls[k], s.calls[l]); }
    }
  }

  lemma TimeoutKeeps(s: Cluster, i: nat, n: nat)
    requires VoteInv(s, n) && Enabled(s, Timeout(i))
    ensures VoteInv(OnTimeout(s, i), n)
  {
    var s' := OnTimeout(s, i);
    var req := Vote(VoteRequestOf(s'.nodes[i]));
    var t := s.nodes[i].term + 1;
    assert (i, t) !in s.backers;
    SupportsGrows(s, s');
    BroadcastOk(s', i, req);
    forall k | 0 <= k < |s'.calls| ensures CallOk(s', s'.calls[k]) {
      if k < |s.calls| { CallStaysOk(s, s', s.calls[k]); } else { assert s'.calls[k] in Broadcast(n, i, req); }
    }
    forall c: nat, u: nat | (c, u) in s'.backers ensures CandidacyOk(s', c, u) {
      if (c, u) != (i, t) { assert CandidacyOk(s, c, u); } else { assert Supports(s', i, i, t); }
    }
    forall j | 0 <= j < n ensures RoleOk(s', j) {
      assert RoleOk(s, j);
      assert (i, t) !in s.won;
    }
    forall a, b | 0 <= a < b < |s'.calls| ensures !SameBallot(s'.calls[a], s'.calls[b]) {
      if b < |s.calls| {
        assert !SameBallot(s.calls[a], s.calls[b]);
      } else if a < |s.calls| {
        assert CallOk(s, s.calls[a]);
      }
    }
  }

  lemma StepKeepsVoteInv(s: Cluster, t: Step, n: nat)
    requires VoteInv(s, n) && Enabled(s, t)
    ensures VoteInv(Next(s, t), n)
  {
    match t
    case Timeout(i) => TimeoutKeeps(s, i, n);
    case Tick(i) => TickKeeps(s, i, n);
    case Client(_, _, _, _, _) => ClientKeeps(s, t, n);
    case Handle(k, ok) => HandleKeeps(s, k, ok, n);
    case Return(k) =>
      if Counts(s.nodes[s.calls[k].from], s.calls[k].stage.resp) {
        CountedReturnKeeps(s, k, n);
      } else {
        UncountedReturnKeeps(s, k, n);
      }
  }

  lemma {:induction false} VoteInvHolds(n: nat, run: seq<Cluster>, steps: seq<Step>, j: nat)
    requires IsRun(n, run, steps) && j < |run|
    ensures VoteInv(run[j], n)
  {
    if j == 0 {
      InitialVoteInv(n);
    } else {
      VoteInvHolds(n, run, steps, j - 1);
      assert StepAt(run, steps, j - 1);
      StepKeepsVoteInv(run[j - 1], steps[j - 1], n);
    }
  }

  // ---- Election safety ------------------------------------------------------------------------------

  lemma {:induction false} RangeSize(a: set<nat>, n: nat)
    requires forall x :: x in a ==> x < n
    ensures |a| <= n
  {
    if n > 0 {
      RangeSize(a - {n - 1}, n - 1);
    } else {
      assert forall x :: x !in a;
    }
  }

  /** Two strict majorities of n members share one. */
  lemma MajoritiesMeet(a: set<nat>, b: set<nat>, n: nat) returns (v: nat)
    requires forall x :: x in a || x in b ==> x < n
    requires 2 * |a| > n && 2 * |b| > n
    ensures v in a && v in b
  {
    RangeSize(a + b, n);
    assert |a + b| == |a| + |b| - |a * b|;
    v :| v in a * b;
  }

  /** At most one candidate has won each term. */
  ghost predicate OneWinnerPerTerm(s: Cluster) {
    forall c: nat, d: nat, t: nat :: (c, t) in s.won && (d, t) in s.won ==> c == d
  }

  lemma OneVoteOneWinner(s: Cluster, n: nat)
    requires VoteInv(s, n) && OneVotePerTerm(s)
    ensures OneWinnerPerTerm(s)
  {
    forall c: nat, d: nat, t: nat | (c, t) in s.won && (d, t) in s.won ensures c == d {
      assert CandidacyOk(s, c, t) && CandidacyOk(s, d, t);
      var v := MajoritiesMeet(s.backers[(c, t)], s.backers[(d, t)], n);
      assert Supports(s, v, c, t) && Supports(s, v, d, t);
    }
  }

  /** Histories only grow: a vote, once cast, stays on record. */
  lemma StepGrowsHistory(s: Cluster, t: Step, n: nat)
    requires VoteInv(s, n) && Enabled(s, t)
    ensures
      var s' := Next(s, t);
      && (forall v: nat, c: nat, u: nat :: Supports(s, v, c, u) ==> Supports(s', v, c, u))
      && s.won <= s'.won
  {
    SupportsGrows(s, Next(s, t));
  }

  lemma {:induction false} HistoryGrows(n: nat, run: seq<Cluster>, steps: seq<Step>, i: nat, j: nat)
    requires IsRun(n, run, steps) && i <= j < |run|
    ensures forall v: nat, c: nat, u: nat :: Supports(run[i], v, c, u) ==> Supports(run[j], v, c, u)
    ensures run[i].won <= run[j].won
    decreases j - i
  {
    if i == j {
    } else {
      HistoryGrows(n, run, steps, i, j - 1);
      VoteInvHolds(n, run, steps, j - 1);
      assert StepAt(run, steps, j - 1);
      StepGrowsHistory(run[j - 1], steps[j - 1], n);
    }
  }

  /** Election safety: in a crash-free run where every member supports at most one candidate per term,
      no two nodes ever lead in the same term, at the same time or at different times. */
  lemma ElectionSafety(n: nat, run: seq<Cluster>, steps: seq<Step>, i: nat, j: nat, a: nat, b: nat)
    requires IsRun(n, run, steps) && i < |run| && j < |run| && a < n && b < n
    requires OneVotePerTerm(run[|run| - 1])
    ensures |run[i].nodes| == n && |run[j].nodes| == n
    ensures
      (run[i].nodes[a].role == Leader && run[j].nodes[b].role == Leader
       && run[i].nodes[a].term == run[j].nodes[b].term) ==> a == b
  {
    VoteInvHolds(n, run, steps, i);
    VoteInvHolds(n, run, steps, j);
    VoteInvHolds(n, run, steps, |run| - 1);
    OneVoteOneWinner(run[|run| - 1], n);
    HistoryGrows(n, run, steps, i, |run| - 1);
    HistoryGrows(n, run, steps, j, |run| - 1);
    assert RoleOk(run[i], a) && RoleOk(run[j], b);
  }
}
