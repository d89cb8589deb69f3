/** A cluster of nodes exchanging calls.  Handlers are atomic; calls may be delayed, reordered or lost,
    and each is handled at most once and answered at most once. */
module Clusters {
  import opened Messages
  import opened Logs
  import opened Nodes

  datatype Request = Vote(vote: VoteRequest) | Append(append: AppendRequest)

  datatype Response = Voted(vote: VoteResponse) | Appended(append: AppendResponse)

  /** A call is handled by its receiver, then its response by the caller's callback.  Broadcasts skip
      the sender, whose slot stays unsent. */
  datatype Stage = Unsent | Pending | Answered(resp: Response) | Done(resp: Response)

  datatype Call = Call(from: nat, to: nat, req: Request, stage: Stage)

  /** `calls` keeps every call ever made.  Two history variables, which no handler reads, complete the
      picture: `backers` maps each candidacy (candidate, term) to the candidate and the members whose
      vote it has counted, and `won` holds the candidacies that led to leadership. */
  datatype Cluster = Cluster(
    nodes: seq<Node>, calls: seq<Call>, backers: map<(nat, nat), set<nat>>, won: set<(nat, nat)>)

  function TermOf(req: Request): nat {
    match req case Vote(q) => q.term case Append(q) => q.term
  }

  function Broadcast(n: nat, from: nat, req: Request): seq<Call> {
    seq(n, (to: nat) => Call(from, to, req, if to == from then Unsent else Pending))
  }

  /** The resend loop's calls; members that do not lag get none. */
  function ResendCalls(n: nat, from: nat, resends: map<nat, AppendRequest>, heartbeat: AppendRequest): seq<Call> {
    seq(n, (to: nat) =>
      if to in resends then Call(from, to, Append(resends[to]), if to == from then Unsent else Pending)
      else Call(from, to, Append(heartbeat), Unsent))
  }

  datatype Step =
    | Timeout(i: nat)
    | Tick(i: nat)
    | Client(i: nat, command: Command, session: nat, requestId: nat, writeOk: bool)
    | Handle(k: nat, writeOk: bool)
    | Return(k: nat)

  predicate Enabled(s: Cluster, t: Step) {
    match t
    case Timeout(i) => i < |s.nodes| && s.nodes[i].role != Leader
    case Tick(i) => i < |s.nodes| && s.nodes[i].role == Leader
    case Client(i, _, _, _, _) => i < |s.nodes|
    case Handle(k, _) => k < |s.calls| && s.calls[k].stage.Pending? && s.calls[k].to < |s.nodes|
    case Return(k) => k < |s.calls| && s.calls[k].stage.Answered? && s.calls[k].from < |s.nodes|
                      && (s.calls[k].req.Vote? <==> s.calls[k].stage.resp.Voted?)
  }

  function OnTimeout(s: Cluster, i: nat): Cluster
    requires Enabled(s, Timeout(i))
  {
    var n := Campaigning(s.nodes[i]);
    s.(nodes := s.nodes[i := n],
       calls := s.calls + Broadcast(|s.nodes|, i, Vote(VoteRequestOf(n))),
       backers := s.backers[(i, n.term) := {i}])
  }

  function OnTick(s: Cluster, i: nat): Cluster
    requires Enabled(s, Tick(i))
  {
    var n := s.nodes[i];
    s.(nodes := s.nodes[i := AfterResends(n)],
       calls := s.calls + ResendCalls(|s.nodes|, i, Resends(n), AppendRequestOf(n))
                + Broadcast(|s.nodes|, i, Append(AppendRequestOf(n))))
  }

  function OnClient(s: Cluster, t: Step): Cluster
    requires t.Client? && Enabled(s, t)
  {
    var (n, outcome) := OnKvRequest(s.nodes[t.i], t.command, t.session, t.requestId, t.writeOk);
    s.(nodes := s.nodes[t.i := n],
       calls := if outcome.Deferred? then s.calls + Broadcast(|s.nodes|, t.i, Append(outcome.request)) else s.calls)
  }

  /** The receiver's handler. */
  function Handled(n: Node, req: Request, writeOk: bool): (Node, Response) {
    match req
    case Vote(q) => var (m, r) := OnVoteRequest(n, q); (m, Voted(r))
    case Append(q) => var (m, r) := OnAppendRequest(n, q, writeOk); (m, Appended(r))
  }

  function OnHandle(s: Cluster, k: nat, writeOk: bool): Cluster
    requires Enabled(s, Handle(k, writeOk))
  {
    var c := s.calls[k];
    var (n, r) := Handled(s.nodes[c.to], c.req, writeOk);
    s.(nodes := s.nodes[c.to := n], calls := s.calls[k := c.(stage := Answered(r))])
  }

  /** The caller's callback.  Calls without entries are heartbeats. */
  ghost function Returned(n: Node, req: Request, resp: Response): Node
    requires req.Vote? <==> resp.Voted?
  {
    match resp
    case Voted(r) => OnVoteResponse(n, r)
    case Appended(r) => if req.append.entries == [] then OnHeartbeatResponse(n, r) else OnAppendResponse(n, r)
  }

  /** The response is a vote that the candidate counts. */
  predicate Counts(n: Node, resp: Response) {
    resp.Voted? && resp.vote.term == n.term && n.role != Leader && resp.vote.granted
  }

  ghost function OnReturn(s: Cluster, k: nat): Cluster
    requires Enabled(s, Return(k))
  {
    var c := s.calls[k];
    var n, r := s.nodes[c.from], c.stage.resp;
    var m := Returned(n, c.req, r);
    var candidacy := (c.from, n.term);
    s.(nodes := s.nodes[c.from := m],
       calls := s.calls[k := c.(stage := Done(r))],
       backers := if Counts(n, r) then
                    s.backers[candidacy := {c.to} + if candidacy in s.backers then s.backers[candidacy] else {}]
                  else s.backers,
       won := if n.role != Leader && m.role == Leader then s.won + {candidacy} else s.won)
  }

  ghost function Next(s: Cluster, t: Step): Cluster
    requires Enabled(s, t)
  {
    match t
    case Timeout(i) => OnTimeout(s, i)
    case Tick(i) => OnTick(s, i)
    case Client(_, _, _, _, _) => OnClient(s, t)
    case Handle(k, ok) => OnHandle(s, k, ok)
    case Return(k) => OnReturn(s, k)
  }

  /** n nodes on empty disks. */
  ghost function Initial(n: nat): Cluster {
    Cluster(seq(n, (i: nat) => Started(i, n, map[], map[])), [], map[], {})
  }

  ghost predicate StepAt(run: seq<Cluster>, steps: seq<Step>, j: nat)
    requires |run| == |steps| + 1 && j < |steps|
  {
    Enabled(run[j], steps[j]) && run[j + 1] == Next(run[j], steps[j])
  }

  /** A crash-free run of n nodes. */
  ghost predicate IsRun(n: nat, run: seq<Cluster>, steps: seq<Step>) {
    && |run| == |steps| + 1
    && run[0] == Initial(n)
    && forall j: nat :: j < |steps| ==> StepAt(run, steps, j)
  }

  lemma Extend(n: nat, run: seq<Cluster>, steps: seq<Step>, t: Step) returns (longer: seq<Cluster>)
    requires IsRun(n, run, steps) && Enabled(run[|steps|], t)
    ensures IsRun(n, longer, steps + [t])
    ensures forall j :: 0 <= j < |run| ==> longer[j] == run[j]
    ensures longer[|steps| + 1] == Next(run[|steps|], t)
  {
    longer := run + [Next(run[|steps|], t)];
    forall j: nat | j < |steps + [t]| ensures StepAt(longer, steps + [t], j) {
      if j < |steps| { assert StepAt(run, steps, j); }
    }
  }

  // ---- Named hypotheses on runs -------------------------------------------------------------

  /** Step t delivers entries that fit the end of the receiver's log, if it delivers entries at all. */
  predicate StepInSync(s: Cluster, t: Step) {
    Enabled(s, t) && t.Handle? && s.calls[t.k].req.Append?
    && Accepts(s.nodes[s.calls[t.k].to], s.calls[t.k].req.append) ==>
      var q := s.calls[t.k].req.append;
      InSync(s.nodes[s.calls[t.k].to].log, q.prevIndex, q.prevTerm)
  }

  ghost predicate InSyncAppend(run: seq<Cluster>, steps: seq<Step>)
    requires |run| == |steps| + 1
  {
    forall j :: 0 <= j < |steps| ==> StepInSync(run[j], steps[j])
  }

  predicate IsGrant(c: Call) {
    c.req.Vote? && (c.stage.Answered? || c.stage.Done?) && c.stage.resp.Voted? && c.stage.resp.vote.granted
  }

  /** Member v has granted candidate c its vote for term t, in call k. */
  predicate GrantAt(s: Cluster, k: nat, v: nat, c: nat, t: nat) {
    && k < |s.calls| && IsGrant(s.calls[k])
    && s.calls[k].from == c && s.calls[k].to == v && s.calls[k].req.vote.term == t
  }

  /** Member v has stood for election or granted its vote in term t, to candidate c. */
  ghost predicate Supports(s: Cluster, v: nat, c: nat, t: nat) {
    (v == c && (c, t) in s.backers) || exists k: nat :: GrantAt(s, k, v, c, t)
  }

  ghost predicate OneVotePerTerm(s: Cluster) {
    forall v: nat, c: nat, d: nat, t: nat :: Supports(s, v, c, t) && Supports(s, v, d, t) ==> c == d
  }
}
