/** The vote handler never records whom it granted, so the safety of elections rests on a hypothesis
    about the run.  This module shows that the hypothesis is needed and which step breaks it. */
module DoubleVotes {
  import opened Wrappers
  import opened Messages
  import opened Nodes
  import opened Clusters
  import opened Elections

  /** Step t asks a member that is in the request's term, has not stood in it, and finds the candidate's
      log up to date, for its vote, when it already supports another candidate in that term. */
  ghost predicate GrantsTwice(s: Cluster, t: Step)
    requires Enabled(s, t)
  {
    && t.Handle? && s.calls[t.k].req.Vote?
    && var q, voter := s.calls[t.k].req.vote, s.nodes[s.calls[t.k].to];
       && q.term == voter.term
       && (voter.votedFor == None || voter.votedFor == Some(q.candidateId))
       && UpToDate(voter, q)
       && exists d: nat :: d != s.calls[t.k].from && Supports(s, s.calls[t.k].to, d, q.term)
  }

  lemma SupportTermBound(s: Cluster, n: nat, v: nat, c: nat, u: nat)
    requires VoteInv(s, n) && Supports(s, v, c, u)
    ensures v < n && u <= s.nodes[v].term
  {
    if v == c && (c, u) in s.backers {
      assert CandidacyOk(s, c, u);
    } else {
      var k: nat :| GrantAt(s, k, v, c, u);
      assert CallOk(s, s.calls[k]);
    }
  }

  /** What a step adds to the record of votes. */
  lemma NewSupport(s: Cluster, t: Step, n: nat, v: nat, c: nat, u: nat)
    requires VoteInv(s, n) && Enabled(s, t)
    requires Supports(Next(s, t), v, c, u) && !Supports(s, v, c, u)
    ensures
      || (t == Timeout(v) && c == v && u == s.nodes[v].term + 1)
      || (t.Handle? && s.calls[t.k].req.Vote? && v == s.calls[t.k].to && c == s.calls[t.k].from
          && u == s.calls[t.k].req.vote.term
          && OnVoteRequest(s.nodes[v], s.calls[t.k].req.vote).1.granted)
  {
    var s' := Next(s, t);
    if v == c && (c, u) in s'.backers {
      assert (c, u) !in s.backers;
    } else {
      var k: nat :| GrantAt(s', k, v, c, u);
      if k < |s.calls| { assert !GrantAt(s, k, v, c, u); }
    }
  }

  /** From a state where every member supports at most one candidate per term, a step keeps this
      true if and only if it does not grant twice. */
  lemma OneVoteKeptIff(s: Cluster, t: Step, n: nat)
    requires VoteInv(s, n) && OneVotePerTerm(s) && Enabled(s, t)
    ensures OneVotePerTerm(Next(s, t)) <==> !GrantsTwice(s, t)
  {
    var s' := Next(s, t);
    StepGrowsHistory(s, t, n);
    if GrantsTwice(s, t) {
      var c := s.calls[t.k];
      var d: nat :| d != c.from && Supports(s, c.to, d, c.req.vote.term);
      assert GrantAt(s', t.k, c.to, c.from, c.req.vote.term);
      assert Supports(s', c.to, c.from, c.req.vote.term) && Supports(s', c.to, d, c.req.vote.term);
    } else {
      forall v: nat, c: nat, d: nat, u: nat | Supports(s', v, c, u) && Supports(s', v, d, u) ensures c == d {
        StillOneVote(s, t, n, v, c, d, u);
      }
    }
  }

  lemma StillOneVote(s: Cluster, t: Step, n: nat, v: nat, c: nat, d: nat, u: nat)
    requires VoteInv(s, n) && OneVotePerTerm(s) && Enabled(s, t) && !GrantsTwice(s, t)
    requires Supports(Next(s, t), v, c, u) && Supports(Next(s, t), v, d, u)
    ensures c == d
  {
    if !Supports(s, v, c, u) {
      NewSupport(s, t, n, v, c, u);
      if Supports(s, v, d, u) { SupportTermBound(s, n, v, d, u); } else { NewSupport(s, t, n, v, d, u); }
    } else if !Supports(s, v, d, u) {
      NewSupport(s, t, n, v, d, u);
      SupportTermBound(s, n, v, c, u);
    }
  }

  // ---- A run with two leaders in one term -----------------------------------------------------------

  /** Three nodes; 0 and 1 stand in term 1, and 2 grants both. */
  const Schedule: seq<Step> := [Timeout(0), Timeout(1), Handle(2, true), Handle(5, true), Return(2), Return(5)]

  /** Call 2 asks member 2 to vote for 0, and call 5 asks it to vote for 1. */
  predicate Asked(s: Cluster, stage: Stage) {
    && |s.nodes| == 3 && |s.calls| == 6
    && s.calls[2] == Call(0, 2, Vote(VoteRequest(1, 0, 0, 0)), stage)
    && s.calls[5] == Call(1, 2, Vote(VoteRequest(1, 1, 0, 0)), stage)
  }

  ghost function Stood(i: nat): Node {
    Campaigning(Started(i, 3, map[], map[]))
  }

  lemma BothStand() returns (run: seq<Cluster>)
    ensures IsRun(3, run, Schedule[..2])
    ensures Asked(run[2], Pending) && run[2].nodes == [Stood(0), Stood(1), Started(2, 3, map[], map[])]
  {
    var s0 := Initial(3);
    run := Extend(3, [s0], [], Timeout(0));
    var s1 := run[1];
    assert s1.nodes == [Stood(0), s0.nodes[1], s0.nodes[2]];
    run := Extend(3, run, [Timeout(0)], Timeout(1));
    assert run[2].nodes == [Stood(0), Stood(1), s0.nodes[2]];
    assert run[2].calls[2] == s1.calls[2];
    assert [Timeout(0)] + [Timeout(1)] == Schedule[..2];
  }

  lemma TwoGrants(run: seq<Cluster>) returns (longer: seq<Cluster>)
    requires IsRun(3, run, Schedule[..2])
    requires Asked(run[2], Pending) && run[2].nodes == [Stood(0), Stood(1), Started(2, 3, map[], map[])]
    ensures IsRun(3, longer, Schedule[..4])
    ensures Asked(longer[4], Answered(Voted(VoteResponse(2, 1, true)))) && longer[4].nodes[..2] == [Stood(0), Stood(1)]
  {
    var s2 := run[2];
    longer := Extend(3, run, Schedule[..2], Handle(2, true));
    var s3 := longer[3];
    assert s3.nodes[2].term == 1 && s3.nodes[2].votedFor == None && s3.nodes[2].log == [] && s3.nodes[2].id == 2;
    assert s3.calls[5] == s2.calls[5];
    longer := Extend(3, longer, Schedule[..2] + [Handle(2, true)], Handle(5, true));
    assert longer[4].calls[2] == s3.calls[2];
    assert Schedule[..2] + [Handle(2, true)] + [Handle(5, true)] == Schedule[..4];
  }

  lemma BothWin(run: seq<Cluster>) returns (longer: seq<Cluster>)
    requires IsRun(3, run, Schedule[..4])
    requires Asked(run[4], Answered(Voted(VoteResponse(2, 1, true)))) && run[4].nodes[..2] == [Stood(0), Stood(1)]
    ensures IsRun(3, longer, Schedule[..6]) && |longer[6].nodes| == 3
    ensures longer[6].nodes[0].role == longer[6].nodes[1].role == Leader
    ensures longer[6].nodes[0].term == longer[6].nodes[1].term == 1
  {
    var s4 := run[4];
    assert s4.nodes[0] == s4.nodes[..2][0] && s4.nodes[1] == s4.nodes[..2][1];
    longer := Extend(3, run, Schedule[..4], Return(2));
    var s5 := longer[5];
    assert s5.calls[5] == s4.calls[5] && s5.nodes[1] == Stood(1);
    longer := Extend(3, longer, Schedule[..4] + [Return(2)], Return(5));
    assert longer[6].nodes[0] == s5.nodes[0];
    assert Schedule[..4] + [Return(2)] + [Return(5)] == Schedule[..6];
  }

  /** Election safety fails without the hypothesis: nodes 0 and 1 both lead in term 1. */
  lemma TwoLeaders() returns (run: seq<Cluster>)
    ensures IsRun(3, run, Schedule)
    ensures
      var last := run[|Schedule|];
      && |last.nodes| == 3 && last.nodes[0].role == Leader && last.nodes[1].role == Leader
      && last.nodes[0].term == last.nodes[1].term
  {
    run := BothStand();
    run := TwoGrants(run);
    run := BothWin(run);
    assert Schedule[..6] == Schedule;
  }
}
