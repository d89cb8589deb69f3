/** A session on a node that leads, steps down and leads again: the node's side of module Sessions is what
    the node's handlers do, so that reply safety holds of the node itself. */
module NodeSessions {
  import opened Wrappers
  import opened Messages
  import opened Machine
  import opened Nodes
  import opened NodeRuns
  import opened Reigns
  import opened Sessions

  type NodeEvent = NodeRuns.Event

  // ---- The two sides of a step ----------------------------------------------------------------------------

  ghost predicate BackIs(b: Back, leading: bool, n: Node) {
    && b.tasks == n.tasks && (leading <==> n.role == Leader)
    && (leading ==> n.log == b.tenure.log && n.st == b.st)
  }

  ghost function Moved(n: Node, e: Option<NodeEvent>): Node {
    if e.Some? && Can(n, e.value) then NodeRuns.After(n, e.value) else n
  }

  /** The node does nothing that the session would notice. */
  ghost predicate Stays(n: Node, e: Option<NodeEvent>) {
    e.Some? ==>
      if n.role == Leader then LeadsOn(n, e.value) && QueueEvent(n, e.value) == []
      else Can(n, e.value) && !e.value.Restart? && NodeRuns.After(n, e.value).role != Leader
  }

  /** The node steps down, or comes to lead, in the course of one event. */
  ghost predicate Turns(n: Node, e: Option<NodeEvent>) {
    && e.Some? && Can(n, e.value) && !e.value.Restart?
    && (n.role == Leader <==> NodeRuns.After(n, e.value).role != Leader)
  }

  /** The node's part in a step of the session: it logs what the session, or another one, asks for, commits
      what its responses say, and leads or not. */
  ghost predicate Plays(s: Session, e: Sessions.Event, n: Node, ne: Option<NodeEvent>) {
    match e
    case Serve(term, ok) =>
      if n.role == Leader && s.queue != [] && s.queue[0].Run? then
        term == n.term && ne == Some(KvAsked(s.queue[0].command, OURS, s.queue[0].id, ok))
      else Stays(n, ne)
    case Elsewhere(term, session, requestId, c) =>
      term == n.term && n.role == Leader && ne == Some(KvAsked(c, session, requestId, true))
    case CommitTo(commit, _) =>
      && ne.Some? && ne.value.AppendAnswered? && DrivesCommit(n, ne.value.response)
      && commit == OnAppendResponse(n, ne.value.response).commit
    case LoseLeadership => n.role == Leader && Turns(n, ne)
    case Comeback(log, st) => n.role != Leader && Turns(n, ne) && log == Moved(n, ne).log && st == Moved(n, ne).st
    case _ => Stays(n, ne)
  }

  ghost predicate JointAt(srun: seq<Session>, ses: seq<Sessions.Event>,
                          run: seq<Node>, es: seq<Option<NodeEvent>>, i: nat)
    requires |srun| == |ses| + 1 == |run| == |es| + 1 && i < |es|
  {
    && Sessions.EventAt(srun, ses, i)
    && Plays(srun[i], ses[i], run[i], es[i])
    && run[i + 1] == Moved(run[i], es[i])
  }

  /** A session and its node, step by step, from a new connection on. */
  ghost predicate IsJoint(srun: seq<Session>, ses: seq<Sessions.Event>,
                          run: seq<Node>, es: seq<Option<NodeEvent>>) {
    && |srun| == |ses| + 1 == |run| == |es| + 1
    && srun[0] == Connected(run[0].role == Leader, run[0].log, run[0].tasks, run[0].st) && NoneOurs(run[0].tasks)
    && forall i: nat :: i < |es| ==> JointAt(srun, ses, run, es, i)
  }

  // ---- Steps ---------------------------------------------------------------------------------------------------

  lemma StayMoves(s: Session, n: Node, ne: Option<NodeEvent>)
    requires BackIs(s.back, s.leading, n) && Stays(n, ne)
    ensures BackIs(s.back, s.leading, Moved(n, ne))
  {
    if ne.Some? {
      if n.role == Leader { QuietEvent(n, ne.value); } else { QueueStays(n, ne.value); }
    }
  }

  lemma LoggedMoves(s: Session, n: Node, c: Command, session: nat, requestId: nat, ok: bool)
    requires BackIs(s.back, s.leading, n) && n.role == Leader
    ensures
      var m := OnKvRequest(n, c, session, requestId, ok).0;
      BackIs(if ok then Logged(s.back, n.term, session, requestId, c) else s.back, true, m)
  {}

  lemma CommitMoves(s: Session, n: Node, r: AppendResponse)
    requires BackIs(s.back, s.leading, n) && DrivesCommit(n, r)
    ensures
      var m := OnAppendResponse(n, r);
      BackIs(Released(s.back, m.commit), true, m)
  {
    RecordIsCommit(n, r, ApplyPaths.Reign(n.log, n.tasks, n.st, [], []));
  }

  /** After the step the two sides agree again, and what is released is what was, or the node's commit index. */
  ghost predicate Follows(s: Session, e: Sessions.Event, n: Node, ne: Option<NodeEvent>)
    requires Possible(s, e)
  {
    var s', n' := Sessions.After(s, e), Moved(n, ne);
    BackIs(s'.back, s'.leading, n') && (s'.back.released == s.back.released || s'.back.released == n'.commit)
  }

  lemma ServeMoves(s: Session, e: Sessions.Event, n: Node, ne: Option<NodeEvent>)
    requires Possible(s, e) && Plays(s, e, n, ne) && BackIs(s.back, s.leading, n) && e.Serve?
    ensures Follows(s, e, n, ne)
  {
    if n.role == Leader && s.queue[0].Run? {
      LoggedMoves(s, n, s.queue[0].command, OURS, s.queue[0].id, e.writeOk);
    } else {
      StayMoves(s, n, ne);
    }
  }

  lemma ElsewhereMoves(s: Session, e: Sessions.Event, n: Node, ne: Option<NodeEvent>)
    requires Possible(s, e) && Plays(s, e, n, ne) && BackIs(s.back, s.leading, n) && e.Elsewhere?
    ensures Follows(s, e, n, ne)
  {
    LoggedMoves(s, n, e.command, e.session, e.requestId, true);
  }

  lemma CommitToMoves(s: Session, e: Sessions.Event, n: Node, ne: Option<NodeEvent>)
    requires Possible(s, e) && Plays(s, e, n, ne) && BackIs(s.back, s.leading, n) && e.CommitTo?
    ensures Follows(s, e, n, ne)
  {
    CommitMoves(s, n, ne.value.response);
    assert Sessions.After(s, e).back == Released(s.back, e.commit) && Sessions.After(s, e).leading;
  }

  lemma TurnMoves(s: Session, e: Sessions.Event, n: Node, ne: Option<NodeEvent>)
    requires Possible(s, e) && Plays(s, e, n, ne) && BackIs(s.back, s.leading, n) && (e.LoseLeadership? || e.Comeback?)
    ensures Follows(s, e, n, ne)
  {
    QueueStays(n, ne.value);
  }

  lemma JointStep(s: Session, e: Sessions.Event, n: Node, ne: Option<NodeEvent>)
    requires Possible(s, e) && Plays(s, e, n, ne) && BackIs(s.back, s.leading, n)
    ensures Follows(s, e, n, ne)
  {
    if e.Serve? {
      ServeMoves(s, e, n, ne);
    } else if e.Elsewhere? {
      ElsewhereMoves(s, e, n, ne);
    } else if e.CommitTo? {
      CommitToMoves(s, e, n, ne);
    } else if e.LoseLeadership? || e.Comeback? {
      TurnMoves(s, e, n, ne);
    } else {
      StayMoves(s, n, ne);
    }
  }

  // ---- Reigns of the node ---------------------------------------------------------------------------------

  /** The reign began with the node's log, queue and store at a, and had the node's log at b. */
  ghost predicate LivedAt(run: seq<Node>, t: Tenure, a: nat, b: nat) {
    && a <= b < |run| && t.base <= |t.log| && run[b].log == t.log
    && run[a].log == t.log[..t.base] && run[a].tasks == t.left && run[a].st == t.st0
  }

  ghost predicate Lived(run: seq<Node>, t: Tenure, j: nat) {
    exists a: nat, b: nat :: b <= j && LivedAt(run, t, a, b)
  }

  ghost predicate Released0(run: seq<Node>, released: nat, j: nat)
    requires j < |run|
  {
    released == 0 || exists l: nat :: l <= j && run[l].commit == released
  }

  ghost predicate Traced(s: Session, run: seq<Node>, j: nat)
    requires j < |run|
  {
    && BackIs(s.back, s.leading, run[j]) && Released0(run, s.back.released, j)
    && Lived(run, s.back.tenure, j) && forall t :: t in s.back.past ==> Lived(run, t, j)
  }

  /** A step leaves past reigns alone; the latest one goes on, or ends and a new one begins at once. */
  lemma TenureMoves(s: Session, e: Sessions.Event)
    requires Possible(s, e)
    ensures
      var b, b' := s.back, Sessions.After(s, e).back;
      if e.Comeback? then b'.past == b.past + [b.tenure] && b'.tenure == Begun(e.log, b.tasks, e.st)
      else b'.past == b.past && Longer(b.tenure, b'.tenure) && (b'.tenure.log != b.tenure.log ==> s.leading)
  {}

  lemma LivesOn(run: seq<Node>, t: Tenure, t': Tenure, j: nat)
    requires j + 1 < |run| && Lived(run, t, j) && Longer(t, t')
    requires t'.log == t.log || t'.log == run[j + 1].log
    ensures Lived(run, t', j + 1)
  {
    var a: nat, b: nat :| b <= j && LivedAt(run, t, a, b);
    assert t'.log[..t.base] == t.log[..t.base];
    if t'.log == t.log { assert LivedAt(run, t', a, b); } else { assert LivedAt(run, t', a, j + 1); }
  }

  lemma TracedStep(s: Session, e: Sessions.Event, run: seq<Node>, ne: Option<NodeEvent>, j: nat)
    requires j + 1 < |run| && Traced(s, run, j) && Possible(s, e) && Plays(s, e, run[j], ne)
    requires run[j + 1] == Moved(run[j], ne)
    ensures Traced(Sessions.After(s, e), run, j + 1)
  {
    var s', n' := Sessions.After(s, e), run[j + 1];
    JointStep(s, e, run[j], ne);
    TenureMoves(s, e);
    assert Released0(run, s'.back.released, j + 1) by {
      if s'.back.released == s.back.released && s.back.released != 0 {
        var l: nat :| l <= j && run[l].commit == s.back.released;
      }
    }
    forall t | t in s.back.past + [s.back.tenure] ensures Lived(run, t, j + 1) { LivesOn(run, t, t, j); }
    if e.Comeback? {
      assert n'.log[..|n'.log|] == n'.log;
      assert LivedAt(run, s'.back.tenure, j + 1, j + 1);
    } else {
      LivesOn(run, s.back.tenure, s'.back.tenure, j);
    }
  }

  /** Throughout, the node's side of the session has the node's own queue, and while the node leads its log
      and its store; each reign of the session is one of the node; and what was released is a commit index
      that the node has had. */
  lemma {:induction false} TracedThroughout(srun: seq<Session>, ses: seq<Sessions.Event>,
                                            run: seq<Node>, es: seq<Option<NodeEvent>>, j: nat)
    requires IsJoint(srun, ses, run, es) && j < |run|
    ensures Traced(srun[j], run, j)
  {
    if j == 0 {
      assert run[0].log[..|run[0].log|] == run[0].log;
      assert LivedAt(run, srun[0].back.tenure, 0, 0);
    } else {
      TracedThroughout(srun, ses, run, es, j - 1);
      assert JointAt(srun, ses, run, es, j - 1);
      TracedStep(srun[j - 1], ses[j - 1], run, es[j - 1], j - 1);
    }
  }

  lemma SessionOfJoint(srun: seq<Session>, ses: seq<Sessions.Event>, run: seq<Node>, es: seq<Option<NodeEvent>>)
    requires IsJoint(srun, ses, run, es)
    ensures IsSession(srun, ses) && IsConnected(srun[0])
  {
    forall i: nat | i < |ses| ensures Sessions.EventAt(srun, ses, i) { assert JointAt(srun, ses, run, es, i); }
  }

  /** Reply safety on the node itself, over any number of reigns, whatever each begins with.  Every
      successful reply that a callback gets is given in a reign that began at a: at an entry of the node's
      log at b, or by a task that the reign found in its queue, in either case up to a commit index that the
      node had at l.  In a reign that began with everything applied and nothing queued, it is what the command
      answers on the fold of the node's log before its entry. */
  lemma NodeReplies(srun: seq<Session>, ses: seq<Sessions.Event>, run: seq<Node>, es: seq<Option<NodeEvent>>,
                    s0: Store, j: nat, i: nat) returns (t: Tenure, k: nat, a: nat, b: nat, l: nat)
    requires IsJoint(srun, ses, run, es) && j < |run|
    requires i < |srun[j].fired| && srun[j].fired[i].outcome.Answered?
    ensures a <= b <= j && l <= j && LivedAt(run, t, a, b)
    ensures
      var asked, r, index := srun[j].asked, srun[j].fired[i], t.base + k - |t.left| + 1;
      if k < |t.left| then
        OnLeftover(asked, t, run[l].commit, r.id, r.outcome.answer, k)
      else
        && OnLog(asked, t, run[l].commit, r.id, r.outcome.answer, index, s0)
        && (run[a].tasks == [] && run[a].st == Fold(s0, run[a].log) ==>
              r.outcome.answer == AnswerOf(Fold(s0, run[b].log[..index - 1]), asked[r.id]))
  {
    SessionOfJoint(srun, ses, run, es);
    TracedThroughout(srun, ses, run, es, j);
    t, k := ReplyPlace(srun, ses, j, i, s0);
    assert Lived(run, t, j);
    a, b :| b <= j && LivedAt(run, t, a, b);
    var s, r, index := srun[j], srun[j].fired[i], t.base + k - |t.left| + 1;
    if s.back.released == 0 { l := j; } else { l :| l <= j && run[l].commit == s.back.released; }
    if k >= |t.left| && run[a].tasks == [] && run[a].st == Fold(s0, run[a].log) {
      CleanStart(s.asked, t, s.back.released, r.id, r.outcome.answer, index, s0);
    }
  }

  lemma CleanStart(asked: seq<Command>, t: Tenure, released: nat, id: nat, answer: Answer, index: nat, s0: Store)
    requires OnLog(asked, t, released, id, answer, index, s0)
    requires t.left == [] && t.st0 == Fold(s0, t.log[..t.base])
    ensures answer == AnswerOf(Fold(s0, t.log[..index - 1]), asked[id])
  {
    assert ApplyPaths.Unaffected(t.log, t.log[..t.base], t.st0, s0, index - 1);
  }
}
