/** Where a node sends the clients that it cannot serve: the use of leader_id_. */
module Redirects {
  import opened Wrappers
  import opened Messages
  import opened Nodes
  import opened Clusters
  import opened Elections
  import Replication

  /** The request names its sender, who has won the request's term. */
  ghost predicate FromWinner(s: Cluster, c: Call) {
    c.req.Append? ==> c.req.append.leaderId == c.from && (c.from, c.req.append.term) in s.won
  }

  /** Node i knows no leader, or one that has won a term no later than its own. */
  ghost predicate KnowsWinner(s: Cluster, i: nat)
    requires i < |s.nodes|
  {
    var m := s.nodes[i];
    m.leaderId.Some? ==> exists t: nat :: t <= m.term && (m.leaderId.value, t) in s.won
  }

  ghost predicate LeadersKnown(s: Cluster) {
    && (forall k :: 0 <= k < |s.calls| ==> FromWinner(s, s.calls[k]))
    && (forall i :: 0 <= i < |s.nodes| ==> KnowsWinner(s, i))
  }

  lemma HandledLeader(n: Node, req: Request, writeOk: bool)
    ensures
      var m := Handled(n, req, writeOk).0;
      && m.term >= n.term
      && (m.leaderId == n.leaderId
          || (req.Append? && m.leaderId == Some(req.append.leaderId) && m.term >= req.append.term))
  {
    HandledEffect(n, req, writeOk);
  }

  lemma ReturnedLeader(n: Node, req: Request, resp: Response)
    requires req.Vote? <==> resp.Voted?
    ensures Returned(n, req, resp).leaderId == n.leaderId
  {}

  lemma OthersStillKnow(s: Cluster, s': Cluster, i: nat)
    requires LeadersKnown(s) && i < |s.nodes| == |s'.nodes| && s'.nodes == s.nodes[i := s'.nodes[i]] && s.won <= s'.won
    ensures forall j :: 0 <= j < |s.nodes| && j != i ==> KnowsWinner(s', j)
    ensures s'.nodes[i].leaderId == s.nodes[i].leaderId && s'.nodes[i].term >= s.nodes[i].term ==> KnowsWinner(s', i)
    ensures forall c :: c in s.calls ==> FromWinner(s', c)
  {
    forall j | 0 <= j < |s.nodes| && s'.nodes[j].leaderId == s.nodes[j].leaderId && s'.nodes[j].term >= s.nodes[j].term
      ensures KnowsWinner(s', j)
    {
      assert KnowsWinner(s, j);
      if s.nodes[j].leaderId.Some? {
        var t: nat :| t <= s.nodes[j].term && (s.nodes[j].leaderId.value, t) in s.won;
        assert (s'.nodes[j].leaderId.value, t) in s'.won;
      }
    }
    forall c | c in s.calls ensures FromWinner(s', c) {
      var k :| 0 <= k < |s.calls| && s.calls[k] == c;
      assert FromWinner(s, s.calls[k]);
    }
  }

  lemma CallsFromWinner(s: Cluster, s': Cluster, calls: seq<Call>)
    requires s'.calls == s.calls + calls && forall c :: c in s.calls || c in calls ==> FromWinner(s', c)
    ensures forall k :: 0 <= k < |s'.calls| ==> FromWinner(s', s'.calls[k])
  {
    forall k | 0 <= k < |s'.calls| ensures s'.calls[k] in s.calls || s'.calls[k] in calls {}
  }

  lemma TickKnown(s: Cluster, i: nat, n: nat)
    requires VoteInv(s, n) && LeadersKnown(s) && Enabled(s, Tick(i))
    ensures LeadersKnown(OnTick(s, i))
  {
    var s' := OnTick(s, i);
    var m := s.nodes[i];
    assert RoleOk(s, i);
    OthersStillKnow(s, s', i);
    var heartbeat := AppendRequestOf(m);
    CallsFromWinner(s, s', ResendCalls(n, i, Resends(m), heartbeat) + Broadcast(n, i, Append(heartbeat)));
  }

  lemma ClientKnown(s: Cluster, t: Step, n: nat)
    requires VoteInv(s, n) && LeadersKnown(s) && t.Client? && Enabled(s, t)
    ensures LeadersKnown(OnClient(s, t))
  {
    var s' := OnClient(s, t);
    assert RoleOk(s, t.i);
    OthersStillKnow(s, s', t.i);
    var outcome := OnKvRequest(s.nodes[t.i], t.command, t.session, t.requestId, t.writeOk).1;
    CallsFromWinner(s, s', if outcome.Deferred? then Broadcast(n, t.i, Append(outcome.request)) else []);
  }

  lemma HandleKnown(s: Cluster, k: nat, writeOk: bool)
    requires LeadersKnown(s) && Enabled(s, Handle(k, writeOk))
    ensures LeadersKnown(OnHandle(s, k, writeOk))
  {
    var s' := OnHandle(s, k, writeOk);
    var c := s.calls[k];
    assert c in s.calls && FromWinner(s, c);
    OthersStillKnow(s, s', c.to);
    HandledLeader(s.nodes[c.to], c.req, writeOk);
    forall l | 0 <= l < |s'.calls| ensures FromWinner(s', s'.calls[l]) { assert s.calls[l] in s.calls; }
  }

  lemma ReturnKnown(s: Cluster, k: nat)
    requires LeadersKnown(s) && Enabled(s, Return(k))
    ensures LeadersKnown(OnReturn(s, k))
  {
    var s' := OnReturn(s, k);
    var c := s.calls[k];
    ReturnedLeader(s.nodes[c.from], c.req, c.stage.resp);
    ReturnedEffect(s.nodes[c.from], c.req, c.stage.resp);
    OthersStillKnow(s, s', c.from);
    forall l | 0 <= l < |s'.calls| ensures FromWinner(s', s'.calls[l]) { assert s.calls[l] in s.calls; }
  }

  lemma TimeoutKnown(s: Cluster, i: nat)
    requires LeadersKnown(s) && Enabled(s, Timeout(i))
    ensures LeadersKnown(OnTimeout(s, i))
  {
    var s' := OnTimeout(s, i);
    OthersStillKnow(s, s', i);
    CallsFromWinner(s, s', Broadcast(|s.nodes|, i, Vote(VoteRequestOf(s'.nodes[i]))));
  }

  lemma StepKeepsLeadersKnown(s: Cluster, t: Step, n: nat)
    requires VoteInv(s, n) && LeadersKnown(s) && Enabled(s, t)
    ensures LeadersKnown(Next(s, t))
  {
    match t
    case Timeout(i) => TimeoutKnown(s, i);
    case Tick(i) => TickKnown(s, i, n);
    case Client(_, _, _, _, _) => ClientKnown(s, t, n);
    case Handle(k, ok) => HandleKnown(s, k, ok);
    case Return(k) => ReturnKnown(s, k);
  }

  lemma {:induction false} LeadersKnownHolds(n: nat, run: seq<Cluster>, steps: seq<Step>, j: nat)
    requires IsRun(n, run, steps) && j < |run|
    ensures LeadersKnown(run[j])
  {
    if j == 0 {
    } else {
      LeadersKnownHolds(n, run, steps, j - 1);
      VoteInvHolds(n, run, steps, j - 1);
      assert StepAt(run, steps, j - 1);
      StepKeepsLeadersKnown(run[j - 1], steps[j - 1], n);
    }
  }

  /** Whoever is on record as the winner of a term did lead in it. */
  lemma {:induction false} WinnerLed(n: nat, run: seq<Cluster>, steps: seq<Step>, j: nat, c: nat, t: nat)
    returns (l: nat)
    requires IsRun(n, run, steps) && j < |run| && (c, t) in run[j].won
    ensures l <= j && c < |run[l].nodes| && run[l].nodes[c].role == Leader && run[l].nodes[c].term == t
  {
    assert j > 0;
    assert StepAt(run, steps, j - 1);
    if (c, t) in run[j - 1].won {
      l := WinnerLed(n, run, steps, j - 1, c, t);
    } else {
      l := j;
      var call := run[j - 1].calls[steps[j - 1].k];
      ReturnedEffect(run[j - 1].nodes[call.from], call.req, call.stage.resp);
    }
  }

  /** A redirect names a member that has led, at some point l of the run, in a term no later than that
      of the node which redirects. */
  lemma RedirectsToLeader(n: nat, run: seq<Cluster>, steps: seq<Step>, j: nat, i: nat,
                          c: Command, session: nat, requestId: nat, writeOk: bool, to: nat) returns (l: nat)
    requires IsRun(n, run, steps) && j < |run| && i < n && |run[j].nodes| == n
    requires OnKvRequest(run[j].nodes[i], c, session, requestId, writeOk).1 == Redirect(Some(to))
    ensures l <= j && |run[l].nodes| == n && to < n
    ensures run[l].nodes[to].role == Leader && run[l].nodes[to].term <= run[j].nodes[i].term
  {
    LeadersKnownHolds(n, run, steps, j);
    var m := run[j].nodes[i];
    assert KnowsWinner(run[j], i);
    assert m.leaderId == Some(to);
    var t: nat :| t <= m.term && (to, t) in run[j].won;
    l := WinnerLed(n, run, steps, j, to, t);
    Replication.RunSize(n, run, steps, l);
  }
}
