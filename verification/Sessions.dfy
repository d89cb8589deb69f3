/** Request and reply matching over one connection: the consumer's callback table, the provider's task
    queue, deferred replies, and the leader's apply queue behind them. */
module Sessions {
  import opened Wrappers
  import opened Messages
  import opened Machine
  import opened ApplyPaths

  /** A refusal is a redirect or a failed append, which is answered at once. */
  datatype Outcome = Refused | Answered(answer: Answer)

  datatype Ask = Ask(id: nat, command: Command)

  /** The session's queue holds requests to invoke and deferred replies to send. */
  datatype Invoke = Run(id: nat, command: Command) | Reply(id: nat, answer: Answer)

  datatype Response = Response(id: nat, outcome: Outcome)

  /** The session under study, among the sessions whose requests share the leader's log. */
  const OURS: nat := 0

  /** One reign of the node behind the session.  Its log, which had `base` entries at the start, the tasks
      `left` in the queue by then, the store `st0` by then, and every task queued so far, leftovers first. */
  datatype Tenure = Tenure(log: seq<LogEntry>, base: nat, left: seq<ApplyTask>, st0: Store, queued: seq<ApplyTask>)

  function Begun(log: seq<LogEntry>, left: seq<ApplyTask>, st: Store): Tenure {
    Tenure(log, |log|, left, st, left)
  }

  /** The node's side: its latest reign, its queue and its store.  History: `past` holds its earlier reigns
      as they ended, and `released` the highest commit index passed to apply. */
  datatype Back = Back(tenure: Tenure, past: seq<Tenure>, tasks: seq<ApplyTask>, st: Store, released: nat)

  /** `asked` holds the command of each call at its request id, so the next id is its length; `waiting`
      are the ids in the callback table, and `fired` is the history of callbacks fired. */
  datatype Session = Session(
    asked: seq<Command>, waiting: set<nat>,
    toProvider: seq<Ask>, queue: seq<Invoke>, toConsumer: seq<Response>, fired: seq<Response>,
    leading: bool, back: Back)

  datatype Event =
    | Call(command: Command)
    | Receive
    | Serve(term: nat, writeOk: bool)
    | Elsewhere(term: nat, session: nat, requestId: nat, command: Command)
    | CommitTo(commit: nat, connected: bool)
    | LoseLeadership
    | Comeback(log: seq<LogEntry>, st: Store)
    | Deliver
    | Idle

  predicate Possible(s: Session, e: Event) {
    match e
    case Receive => s.toProvider != []
    case Serve(_, _) => s.queue != []
    case Elsewhere(_, session, _, _) => s.leading && session != OURS
    case CommitTo(_, _) => s.leading
    case Comeback(_, _) => !s.leading
    case Deliver => s.toConsumer != []
    case _ => true
  }

  function Logged(b: Back, term: nat, session: nat, id: nat, c: Command): Back {
    var index := |b.tenure.log| + 1;
    var task := ApplyTask(index, session, id, c);
    b.(tenure := b.tenure.(log := b.tenure.log + [LogEntry(term, index, c)], queued := b.tenure.queued + [task]),
       tasks := b.tasks + [task])
  }

  /** The node leads again.  As a follower it has got another log and another store, and kept its queue. */
  function Returned(b: Back, log: seq<LogEntry>, st: Store): Back {
    b.(past := b.past + [b.tenure], tenure := Begun(log, b.tasks, st), st := st)
  }

  function Deferred(ds: seq<Delivery>): seq<Invoke> {
    seq(|ds|, i requires 0 <= i < |ds| => Reply(ds[i].requestId, ds[i].answer))
  }

  function Live(connected: bool): set<nat> { if connected then {OURS} else {} }

  function Served(s: Session, term: nat, writeOk: bool): Session
    requires s.queue != []
  {
    var q := s.(queue := s.queue[1..]);
    match s.queue[0]
    case Run(id, c) =>
      if s.leading && writeOk then q.(back := Logged(s.back, term, OURS, id, c))
      else q.(toConsumer := s.toConsumer + [Response(id, Refused)])
    case Reply(id, answer) => q.(toConsumer := s.toConsumer + [Response(id, Answered(answer))])
  }

  function Released(b: Back, commit: nat): Back {
    var d := Ready(b.tasks, commit);
    b.(tasks := b.tasks[d..], st := RunTasks(b.st, b.tasks[..d]), released := Max(b.released, commit))
  }

  /** The answers that a commit pushes to our session's queue. */
  function Pushed(b: Back, commit: nat, connected: bool): seq<Delivery> {
    Deliveries(b.st, b.tasks[..Ready(b.tasks, commit)], Live(connected))
  }

  function Delivered(s: Session): Session
    requires s.toConsumer != []
  {
    var r := s.toConsumer[0];
    var t := s.(toConsumer := s.toConsumer[1..]);
    if r.id in s.waiting then t.(waiting := s.waiting - {r.id}, fired := s.fired + [r]) else t
  }

  function After(s: Session, e: Event): Session
    requires Possible(s, e)
  {
    match e
    case Call(c) =>
      s.(asked := s.asked + [c], waiting := s.waiting + {|s.asked|}, toProvider := s.toProvider + [Ask(|s.asked|, c)])
    case Receive =>
      s.(toProvider := s.toProvider[1..], queue := s.queue + [Run(s.toProvider[0].id, s.toProvider[0].command)])
    case Serve(term, writeOk) => Served(s, term, writeOk)
    case Elsewhere(term, session, id, c) => s.(back := Logged(s.back, term, session, id, c))
    case CommitTo(commit, connected) =>
      s.(back := Released(s.back, commit), queue := s.queue + Deferred(Pushed(s.back, commit, connected)))
    case LoseLeadership => s.(leading := false)
    case Comeback(log, st) => s.(leading := true, back := Returned(s.back, log, st))
    case Deliver => Delivered(s)
    case Idle => s
  }

  // ---- Each id is in one place ------------------------------------------------------------------------

  function AskId(a: Ask): Option<nat> { Some(a.id) }
  function InvokeId(i: Invoke): Option<nat> { Some(i.id) }
  function ResponseId(r: Response): Option<nat> { Some(r.id) }
  function TaskId(t: ApplyTask): Option<nat> { if t.session == OURS then Some(t.requestId) else None }

  /** How often an id occurs. */
  function Count<T>(w: seq<T>, tag: T -> Option<nat>, id: nat): nat {
    if w == [] then 0 else Count(w[..|w| - 1], tag, id) + if tag(w[|w| - 1]) == Some(id) then 1 else 0
  }

  lemma {:induction false} CountSplit<T>(a: seq<T>, b: seq<T>, tag: T -> Option<nat>, id: nat)
    ensures Count(a + b, tag, id) == Count(a, tag, id) + Count(b, tag, id)
  {
    if b == [] {
      assert a + b == a;
    } else {
      assert (a + b)[..|a + b| - 1] == a + b[..|b| - 1];
      CountSplit(a, b[..|b| - 1], tag, id);
    }
  }

  lemma CountPush<T>(w: seq<T>, x: T, tag: T -> Option<nat>, id: nat)
    ensures Count(w + [x], tag, id) == Count(w, tag, id) + if tag(x) == Some(id) then 1 else 0
  {
    assert (w + [x])[..|w|] == w;
  }

  lemma CountPop<T>(w: seq<T>, tag: T -> Option<nat>, id: nat)
    requires w != []
    ensures Count(w, tag, id) == (if tag(w[0]) == Some(id) then 1 else 0) + Count(w[1..], tag, id)
  {
    assert w == [w[0]] + w[1..];
    CountSplit([w[0]], w[1..], tag, id);
    CountPush([], w[0], tag, id);
    assert [] + [w[0]] == [w[0]];
  }

  function CallbacksFired(s: Session, id: nat): nat { Count(s.fired, ResponseId, id) }

  /** Where an id can be: on its way out, in the task queue, in the apply queue, on its way back, fired. */
  function Places(s: Session, id: nat): nat {
    Count(s.toProvider, AskId, id) + Count(s.queue, InvokeId, id) + Count(s.back.tasks, TaskId, id)
    + Count(s.toConsumer, ResponseId, id) + CallbacksFired(s, id)
  }

  ghost predicate IdOk(s: Session, id: nat) {
    && Places(s, id) <= (if id < |s.asked| then 1 else 0)
    && (id in s.waiting <==> id < |s.asked| && CallbacksFired(s, id) == 0)
  }

  ghost predicate IdsOk(s: Session) {
    forall id: nat :: IdOk(s, id)
  }

  lemma {:induction false} DeferredCount(st: Store, ts: seq<ApplyTask>, id: nat)
    ensures Count(Deferred(Deliveries(st, ts, Live(true))), InvokeId, id) == Count(ts, TaskId, id)
    ensures Deliveries(st, ts, Live(false)) == []
  {
    if ts == [] {
    } else {
      var n := |ts| - 1;
      DeferredCount(st, ts[..n], id);
      var ds, all := Deliveries(st, ts[..n], Live(true)), Deliveries(st, ts, Live(true));
      if ts[n].session == OURS {
        var d := Delivery(OURS, ts[n].requestId, AnswerOf(RunTasks(st, ts[..n]), ts[n].command));
        assert all == ds + [d];
        assert Deferred(all) == Deferred(ds) + [Reply(d.requestId, d.answer)];
        CountPush(Deferred(ds), Reply(d.requestId, d.answer), InvokeId, id);
      } else {
        assert all == ds + [] == ds;
      }
    }
  }

  lemma ServeConserves(s: Session, term: nat, writeOk: bool, id: nat)
    requires s.queue != []
    ensures Places(Served(s, term, writeOk), id) == Places(s, id)
  {
    CountPop(s.queue, InvokeId, id);
    match s.queue[0]
    case Run(x, c) =>
      CountPush(s.back.tasks, ApplyTask(|s.back.tenure.log| + 1, OURS, x, c), TaskId, id);
      CountPush(s.toConsumer, Response(x, Refused), ResponseId, id);
    case Reply(x, answer) => CountPush(s.toConsumer, Response(x, Answered(answer)), ResponseId, id);
  }

  /** A commit moves ids from the apply queue to the session's, or drops them when it is gone. */
  lemma CommitConserves(s: Session, commit: nat, connected: bool, id: nat)
    requires s.leading
    ensures
      var after := Places(After(s, Event.CommitTo(commit, connected)), id);
      after <= Places(s, id) && (connected ==> after == Places(s, id))
  {
    var d := Ready(s.back.tasks, commit);
    var ts := s.back.tasks[..d];
    assert s.back.tasks == ts + s.back.tasks[d..];
    CountSplit(ts, s.back.tasks[d..], TaskId, id);
    DeferredCount(s.back.st, ts, id);
    CountSplit(s.queue, Deferred(Pushed(s.back, commit, connected)), InvokeId, id);
  }

  /** Every response that arrives finds its callback. */
  lemma DeliveredWaiting(s: Session)
    requires IdsOk(s) && s.toConsumer != []
    ensures s.toConsumer[0].id in s.waiting
  {
    var r := s.toConsumer[0];
    CountPop(s.toConsumer, ResponseId, r.id);
    assert IdOk(s, r.id);
  }

  lemma DeliverKeepsId(s: Session, id: nat)
    requires IdOk(s, id) && s.toConsumer != [] && s.toConsumer[0].id in s.waiting
    ensures IdOk(Delivered(s), id)
  {
    CountPop(s.toConsumer, ResponseId, id);
    CountPush(s.fired, s.toConsumer[0], ResponseId, id);
  }

  lemma CallKeepsId(s: Session, c: Command, id: nat)
    requires IdOk(s, id)
    ensures IdOk(After(s, Call(c)), id)
  {
    CountPush(s.toProvider, Ask(|s.asked|, c), AskId, id);
  }

  lemma ReceiveKeepsId(s: Session, id: nat)
    requires IdOk(s, id) && s.toProvider != []
    ensures IdOk(After(s, Receive), id)
  {
    CountPop(s.toProvider, AskId, id);
    CountPush(s.queue, Run(s.toProvider[0].id, s.toProvider[0].command), InvokeId, id);
  }

  lemma StepKeepsId(s: Session, e: Event, id: nat)
    requires IdsOk(s) && Possible(s, e)
    ensures IdOk(After(s, e), id)
  {
    assert IdOk(s, id);
    match e
    case Call(c) => CallKeepsId(s, c, id);
    case Receive => ReceiveKeepsId(s, id);
    case Serve(term, ok) => ServeConserves(s, term, ok, id);
    case Elsewhere(term, session, x, c) =>
      CountPush(s.back.tasks, ApplyTask(|s.back.tenure.log| + 1, session, x, c), TaskId, id);
    case CommitTo(commit, connected) => CommitConserves(s, commit, connected, id);
    case LoseLeadership =>
    case Comeback(_, _) =>
    case Deliver =>
      DeliveredWaiting(s);
      DeliverKeepsId(s, id);
    case Idle =>
  }

  // ---- Each reply is right --------------------------------------------------------------------------------

  ghost predicate TaskRight(asked: seq<Command>, t: ApplyTask) {
    t.session == OURS ==> t.requestId < |asked| && t.command == asked[t.requestId]
  }

  /** The reign's own tasks stand for the entries that it logged, and ours for our requests. */
  ghost predicate TenureOk(asked: seq<Command>, t: Tenure) {
    && OwnTasks(t.log, t.queued, t.base, t.left)
    && forall i :: 0 <= i < |t.queued| ==> TaskRight(asked, t.queued[i])
  }

  /** The answer is what task k of the reign gives, which a commit released, after all earlier tasks of the
      reign; and this task is our request id's. */
  ghost predicate RightIn(asked: seq<Command>, t: Tenure, released: nat, id: nat, answer: Answer, k: nat) {
    && k < |t.queued| && t.queued[k].session == OURS && t.queued[k].requestId == id && t.queued[k].index <= released
    && id < |asked| && t.queued[k].command == asked[id]
    && answer == AnswerOf(RunTasks(t.st0, t.queued[..k]), asked[id])
  }

  ghost predicate Right(asked: seq<Command>, b: Back, id: nat, answer: Answer) {
    exists t: Tenure, k: nat :: (t == b.tenure || t in b.past) && RightIn(asked, t, b.released, id, answer, k)
  }

  ghost predicate ResponseRight(asked: seq<Command>, b: Back, r: Response) {
    r.outcome.Answered? ==> Right(asked, b, r.id, r.outcome.answer)
  }

  ghost predicate InvokeRight(asked: seq<Command>, b: Back, i: Invoke) {
    match i
    case Run(id, c) => id < |asked| && asked[id] == c
    case Reply(id, answer) => Right(asked, b, id, answer)
  }

  /** Of all the reign's tasks, `tasks` are still queued, and the others have made `st` of its first store. */
  ghost predicate QueueIs(t: Tenure, tasks: seq<ApplyTask>, st: Store) {
    && |tasks| <= |t.queued|
    && var q := |t.queued| - |tasks|;
       tasks == t.queued[q..] && st == RunTasks(t.st0, t.queued[..q])
  }

  ghost predicate BackOk(asked: seq<Command>, b: Back) {
    && TenureOk(asked, b.tenure)
    && (forall t :: t in b.past ==> TenureOk(asked, t))
    && QueueIs(b.tenure, b.tasks, b.st)
  }

  ghost predicate RepliesOk(s: Session, asked: seq<Command>, b: Back) {
    && (forall a :: a in s.toProvider ==> a.id < |asked| && asked[a.id] == a.command)
    && (forall i :: i in s.queue ==> InvokeRight(asked, b, i))
    && (forall r :: r in s.toConsumer ==> ResponseRight(asked, b, r))
    && (forall r :: r in s.fired ==> ResponseRight(asked, b, r))
  }

  ghost predicate SessionOk(s: Session) {
    BackOk(s.asked, s.back) && RepliesOk(s, s.asked, s.back)
  }

  /** The same reign, further on. */
  ghost predicate Longer(t: Tenure, t': Tenure) {
    t'.st0 == t.st0 && t'.base == t.base && t'.left == t.left && t.log <= t'.log && t.queued <= t'.queued
  }

  /** Reigns only grow and pile up, and so do the released commits. */
  ghost predicate Extends(b: Back, b': Back) {
    && b.released <= b'.released
    && ((b'.past == b.past && Longer(b.tenure, b'.tenure)) || b'.past == b.past + [b.tenure])
  }

  lemma RightStays(asked: seq<Command>, b: Back, asked': seq<Command>, b': Back, id: nat, answer: Answer)
    requires Right(asked, b, id, answer) && asked <= asked' && Extends(b, b')
    ensures Right(asked', b', id, answer)
  {
    var t: Tenure, k: nat :| (t == b.tenure || t in b.past) && RightIn(asked, t, b.released, id, answer, k);
    if t == b.tenure && b'.past == b.past {
      assert b'.tenure.queued[..k] == t.queued[..k];
      assert RightIn(asked', b'.tenure, b'.released, id, answer, k);
    } else {
      assert t in b'.past && RightIn(asked', t, b'.released, id, answer, k);
    }
  }

  lemma RepliesStay(s: Session, asked: seq<Command>, b: Back, asked': seq<Command>, b': Back)
    requires RepliesOk(s, asked, b) && asked <= asked' && Extends(b, b')
    ensures RepliesOk(s, asked', b')
  {
    forall i | i in s.queue ensures InvokeRight(asked', b', i) {
      if i.Reply? { RightStays(asked, b, asked', b', i.id, i.answer); }
    }
    forall r | r in s.toConsumer || r in s.fired ensures ResponseRight(asked', b', r) {
      if r.outcome.Answered? { RightStays(asked, b, asked', b', r.id, r.outcome.answer); }
    }
  }

  lemma LoggedTenureOk(asked: seq<Command>, b: Back, term: nat, session: nat, id: nat, c: Command)
    requires TenureOk(asked, b.tenure) && (session == OURS ==> id < |asked| && asked[id] == c)
    ensures
      var t := Logged(b, term, session, id, c).tenure;
      TenureOk(asked, t) && Longer(b.tenure, t)
  {
    var t, t' := b.tenure, Logged(b, term, session, id, c).tenure;
    assert t'.queued[|t.left|..] == t.queued[|t.left|..] + [t'.queued[|t.queued|]];
  }

  lemma LoggedBackOk(asked: seq<Command>, b: Back, term: nat, session: nat, id: nat, c: Command)
    requires BackOk(asked, b) && (session == OURS ==> id < |asked| && asked[id] == c)
    ensures BackOk(asked, Logged(b, term, session, id, c)) && Extends(b, Logged(b, term, session, id, c))
  {
    var b', q := Logged(b, term, session, id, c), |b.tenure.queued| - |b.tasks|;
    LoggedTenureOk(asked, b, term, session, id, c);
    assert b'.tenure.queued[..q] == b.tenure.queued[..q];
    assert b'.tenure.queued[q..] == b.tenure.queued[q..] + [b'.tenure.queued[|b.tenure.queued|]];
  }

  lemma DrainedQueue(t: Tenure, tasks: seq<ApplyTask>, st: Store, d: nat)
    requires QueueIs(t, tasks, st) && d <= |tasks|
    ensures QueueIs(t, tasks[d..], RunTasks(st, tasks[..d]))
  {
    var q := |t.queued| - |tasks|;
    RunOn(t.st0, t.queued, q, d);
    assert t.queued[q..][d..] == t.queued[q + d..];
  }

  lemma ReleasedBackOk(asked: seq<Command>, b: Back, commit: nat)
    requires BackOk(asked, b)
    ensures BackOk(asked, Released(b, commit)) && Extends(b, Released(b, commit))
  {
    DrainedQueue(b.tenure, b.tasks, b.st, Ready(b.tasks, commit));
  }

  lemma ReturnedBackOk(asked: seq<Command>, b: Back, log: seq<LogEntry>, st: Store)
    requires BackOk(asked, b)
    ensures BackOk(asked, Returned(b, log, st)) && Extends(b, Returned(b, log, st))
  {
    var q := |b.tenure.queued| - |b.tasks|;
    forall i | 0 <= i < |b.tasks| ensures TaskRight(asked, b.tasks[i]) {
      assert b.tasks[i] == b.tenure.queued[q + i];
    }
    assert b.tasks[|b.tasks|..] == [] && b.tasks[..0] == [] && b.tasks[0..] == b.tasks;
  }

  /** Where the i-th delivery comes from. */
  lemma {:induction false} DeliveryFrom(st: Store, ts: seq<ApplyTask>, live: set<nat>, i: nat) returns (j: nat)
    requires i < |Deliveries(st, ts, live)|
    ensures j < |ts| && ts[j].session in live
    ensures
      Deliveries(st, ts, live)[i]
      == Delivery(ts[j].session, ts[j].requestId, AnswerOf(RunTasks(st, ts[..j]), ts[j].command))
  {
    var n := |ts| - 1;
    if i < |Deliveries(st, ts[..n], live)| {
      j := DeliveryFrom(st, ts[..n], live, i);
      assert ts[..n][..j] == ts[..j];
    } else {
      j := n;
    }
  }

  /** A reply pushed by a commit is right, at a task released by that commit. */
  lemma PushedRight(asked: seq<Command>, b: Back, commit: nat, connected: bool, i: nat)
    requires BackOk(asked, b) && i < |Pushed(b, commit, connected)|
    ensures
      var r := Pushed(b, commit, connected)[i];
      Right(asked, Released(b, commit), r.requestId, r.answer)
  {
    var d, q := Ready(b.tasks, commit), |b.tenure.queued| - |b.tasks|;
    var j := DeliveryFrom(b.st, b.tasks[..d], Live(connected), i);
    var t, task := b.tenure, b.tasks[j];
    assert b.tasks[..d][..j] == b.tasks[..j] && task == t.queued[q + j];
    RunOn(t.st0, t.queued, q, j);
    assert TaskRight(asked, t.queued[q + j]);
    var answer := AnswerOf(RunTasks(b.st, b.tasks[..j]), task.command);
    assert RightIn(asked, t, Released(b, commit).released, task.requestId, answer, q + j);
  }

  lemma DeferredRight(asked: seq<Command>, b: Back, commit: nat, connected: bool)
    requires BackOk(asked, b)
    ensures forall i :: i in Deferred(Pushed(b, commit, connected)) ==> InvokeRight(asked, Released(b, commit), i)
  {
    var ds := Pushed(b, commit, connected);
    forall i | i in Deferred(ds) ensures InvokeRight(asked, Released(b, commit), i) {
      var k :| 0 <= k < |ds| && Deferred(ds)[k] == i;
      PushedRight(asked, b, commit, connected, k);
    }
  }

  lemma QueueGrows(s: Session, more: seq<Invoke>, asked: seq<Command>, b: Back)
    requires RepliesOk(s, asked, b) && forall i :: i in more ==> InvokeRight(asked, b, i)
    ensures RepliesOk(s.(queue := s.queue + more), asked, b)
  {
    forall i | i in s.queue + more ensures InvokeRight(asked, b, i) { assert i in s.queue || i in more; }
  }

  lemma CommitKeepsOk(s: Session, commit: nat, connected: bool)
    requires SessionOk(s) && s.leading
    ensures SessionOk(After(s, Event.CommitTo(commit, connected)))
  {
    var b' := Released(s.back, commit);
    ReleasedBackOk(s.asked, s.back, commit);
    RepliesStay(s, s.asked, s.back, s.asked, b');
    DeferredRight(s.asked, s.back, commit, connected);
    QueueGrows(s, Deferred(Pushed(s.back, commit, connected)), s.asked, b');
  }

  lemma ServeKeepsOk(s: Session, term: nat, writeOk: bool)
    requires SessionOk(s) && s.queue != []
    ensures SessionOk(Served(s, term, writeOk))
  {
    var first := s.queue[0];
    assert first in s.queue && InvokeRight(s.asked, s.back, first);
    if first.Run? && s.leading && writeOk {
      LoggedBackOk(s.asked, s.back, term, OURS, first.id, first.command);
      RepliesStay(s, s.asked, s.back, s.asked, Logged(s.back, term, OURS, first.id, first.command));
    }
  }

  lemma CallKeepsOk(s: Session, c: Command)
    requires SessionOk(s)
    ensures SessionOk(After(s, Call(c)))
  {
    RepliesStay(s, s.asked, s.back, s.asked + [c], s.back);
    forall t | TenureOk(s.asked, t) ensures TenureOk(s.asked + [c], t) {
      forall i | 0 <= i < |t.queued| ensures TaskRight(s.asked + [c], t.queued[i]) {
        assert TaskRight(s.asked, t.queued[i]);
      }
    }
  }

  lemma StepKeepsOk(s: Session, e: Event)
    requires SessionOk(s) && Possible(s, e)
    ensures SessionOk(After(s, e))
  {
    match e
    case Call(c) => CallKeepsOk(s, c);
    case Serve(term, ok) => ServeKeepsOk(s, term, ok);
    case Elsewhere(term, session, id, c) =>
      LoggedBackOk(s.asked, s.back, term, session, id, c);
      RepliesStay(s, s.asked, s.back, s.asked, Logged(s.back, term, session, id, c));
    case CommitTo(commit, connected) => CommitKeepsOk(s, commit, connected);
    case Comeback(log, st) =>
      ReturnedBackOk(s.asked, s.back, log, st);
      RepliesStay(s, s.asked, s.back, s.asked, Returned(s.back, log, st));
    case _ =>
  }

  // ---- Runs ---------------------------------------------------------------------------------------------------

  predicate NoneOurs(left: seq<ApplyTask>) {
    forall i :: 0 <= i < |left| ==> left[i].session != OURS
  }

  /** A new connection to a node, leading or not, with any log, any store, and any tasks of other sessions in
      its queue. */
  function Connected(leading: bool, log: seq<LogEntry>, left: seq<ApplyTask>, st: Store): Session {
    Session([], {}, [], [], [], [], leading, Back(Begun(log, left, st), [], left, st, 0))
  }

  ghost predicate IsConnected(s: Session) {
    var b := s.back;
    s == Connected(s.leading, b.tenure.log, b.tasks, b.st) && NoneOurs(b.tasks)
  }

  ghost predicate EventAt(run: seq<Session>, es: seq<Event>, i: nat)
    requires |run| == |es| + 1 && i < |es|
  {
    Possible(run[i], es[i]) && run[i + 1] == After(run[i], es[i])
  }

  ghost predicate IsSession(run: seq<Session>, es: seq<Event>) {
    |run| == |es| + 1 && forall i: nat :: i < |es| ==> EventAt(run, es, i)
  }

  lemma {:induction false} NoneCount(left: seq<ApplyTask>, id: nat)
    requires NoneOurs(left)
    ensures Count(left, TaskId, id) == 0
  {
    if left == [] {
    } else {
      NoneCount(left[..|left| - 1], id);
    }
  }

  lemma {:induction false} IdsHold(run: seq<Session>, es: seq<Event>, j: nat)
    requires IsSession(run, es) && IsConnected(run[0]) && j < |run|
    ensures IdsOk(run[j])
  {
    if j == 0 {
      forall id: nat ensures IdOk(run[0], id) { NoneCount(run[0].back.tasks, id); }
    } else {
      IdsHold(run, es, j - 1);
      assert EventAt(run, es, j - 1);
      forall id: nat ensures IdOk(run[j], id) { StepKeepsId(run[j - 1], es[j - 1], id); }
    }
  }

  /** A step moves each id on and creates the id of a call, as long as commits find the session connected. */
  lemma StepConserves(s: Session, e: Event, id: nat)
    requires Possible(s, e) && IdsOk(s) && (e.CommitTo? ==> e.connected)
    ensures Places(After(s, e), id) == Places(s, id) + if e.Call? && id == |s.asked| then 1 else 0
  {
    match e
    case Call(c) => CountPush(s.toProvider, Ask(|s.asked|, c), AskId, id);
    case Receive =>
      CountPop(s.toProvider, AskId, id);
      CountPush(s.queue, Run(s.toProvider[0].id, s.toProvider[0].command), InvokeId, id);
    case Serve(term, ok) => ServeConserves(s, term, ok, id);
    case Elsewhere(term, session, x, c) =>
      CountPush(s.back.tasks, ApplyTask(|s.back.tenure.log| + 1, session, x, c), TaskId, id);
    case CommitTo(commit, connected) => CommitConserves(s, commit, connected, id);
    case Deliver =>
      DeliveredWaiting(s);
      CountPop(s.toConsumer, ResponseId, id);
      CountPush(s.fired, s.toConsumer[0], ResponseId, id);
    case _ =>
  }

  /** Nothing is lost: while the session is connected, every call made is at every moment in exactly one place
      on its way there and back, or has fired. */
  lemma {:induction false} NothingLost(run: seq<Session>, es: seq<Event>, j: nat, id: nat)
    requires IsSession(run, es) && IsConnected(run[0]) && j < |run|
    requires forall i :: 0 <= i < |es| && es[i].CommitTo? ==> es[i].connected
    ensures Places(run[j], id) == if id < |run[j].asked| then 1 else 0
  {
    if j == 0 {
      NoneCount(run[0].back.tasks, id);
    } else {
      NothingLost(run, es, j - 1, id);
      IdsHold(run, es, j - 1);
      assert EventAt(run, es, j - 1);
      StepConserves(run[j - 1], es[j - 1], id);
    }
  }

  lemma FirstOk(s: Session)
    requires IsConnected(s)
    ensures SessionOk(s)
  {
    var left := s.back.tasks;
    assert left[|left|..] == [] && left[..0] == [] && left[0..] == left;
  }

  lemma {:induction false} SessionHolds(run: seq<Session>, es: seq<Event>, j: nat)
    requires IsSession(run, es) && IsConnected(run[0]) && j < |run|
    ensures SessionOk(run[j])
  {
    if j == 0 {
      FirstOk(run[0]);
    } else {
      SessionHolds(run, es, j - 1);
      assert EventAt(run, es, j - 1);
      StepKeepsOk(run[j - 1], es[j - 1]);
    }
  }

  lemma OccursAt(w: seq<Response>, i: nat)
    requires i < |w|
    ensures Count(w, ResponseId, w[i].id) >= 1
  {
    assert w == w[..i] + w[i..];
    CountSplit(w[..i], w[i..], ResponseId, w[i].id);
    CountPop(w[i..], ResponseId, w[i].id);
  }

  lemma OccursTwice(w: seq<Response>, i: nat, j: nat)
    requires i < j < |w| && w[i].id == w[j].id
    ensures Count(w, ResponseId, w[i].id) >= 2
  {
    assert w == w[..j] + w[j..] && w[..j][i] == w[i];
    CountSplit(w[..j], w[j..], ResponseId, w[i].id);
    OccursAt(w[..j], i);
    OccursAt(w[j..], 0);
  }

  /** Reply safety.  Over all interleavings of one session's calls, other sessions' writes, commits,
      deferred replies, the loss and recovery of leadership any number of times, and the loss of the
      connection, from any store and any queue: no callback fires twice, and each fires with the reply made
      for its own request.  A successful reply is what its own task gives, released by a commit, in some
      reign of the node, after all earlier tasks of that reign. */
  lemma ReplySafety(run: seq<Session>, es: seq<Event>, m: nat, i: nat)
    requires IsSession(run, es) && IsConnected(run[0]) && m < |run| && i < |run[m].fired|
    ensures
      var s := run[m];
      var r := s.fired[i];
      && r.id < |s.asked| && r.id !in s.waiting
      && (forall j :: i < j < |s.fired| ==> s.fired[j].id != r.id)
      && (r.outcome.Answered? ==> Right(s.asked, s.back, r.id, r.outcome.answer))
  {
    IdsHold(run, es, m);
    SessionHolds(run, es, m);
    var s := run[m];
    var r := s.fired[i];
    assert r in s.fired && IdOk(s, r.id);
    OccursAt(s.fired, i);
    forall j | i < j < |s.fired| ensures s.fired[j].id != r.id {
      if s.fired[j].id == r.id { OccursTwice(s.fired, i, j); }
    }
  }

  /** The answer is given at an entry that the reign logged: it carries our command, at an index that a
      commit released, and the answer is what the command gives on the fold of the reign's earlier entries
      over what the leftovers made of the starting store.  That is the fold of the whole log before it, over
      s0, if the reign's start makes no difference to it. */
  ghost predicate OnLog(asked: seq<Command>, t: Tenure, released: nat, id: nat, answer: Answer, index: nat, s0: Store) {
    && t.base < index <= released && index <= |t.log| && id < |asked| && t.log[index - 1].command == asked[id]
    && answer == AnswerOf(Fold(RunTasks(t.st0, t.left), t.log[t.base..index - 1]), asked[id])
    && (Unaffected(t.log, t.log[..t.base], RunTasks(t.st0, t.left), s0, index - 1) ==>
          answer == AnswerOf(Fold(s0, t.log[..index - 1]), asked[id]))
  }

  /** The answer is given by a task that the reign found in its queue. */
  ghost predicate OnLeftover(asked: seq<Command>, t: Tenure, released: nat, id: nat, answer: Answer, k: nat) {
    && k < |t.left| && t.left[k].session == OURS && t.left[k].requestId == id && t.left[k].index <= released
    && id < |asked| && t.left[k].command == asked[id]
    && answer == AnswerOf(RunTasks(t.st0, t.left[..k]), asked[id])
  }

  lemma OwnPlace(asked: seq<Command>, t: Tenure, released: nat, id: nat, answer: Answer, m: nat, s0: Store)
    requires TenureOk(asked, t) && RightIn(asked, t, released, id, answer, |t.left| + m)
    ensures OnLog(asked, t, released, id, answer, t.base + m + 1, s0)
  {
    assert t.queued[|t.left| + m] == t.queued[|t.left|..][m];
    OwnStore(t.log, t.queued, t.base, t.left, t.st0, m);
    FoldPastIff(RunTasks(t.st0, t.left), s0, t.log[..t.base], t.log, t.base + m);
  }

  lemma RightPlace(asked: seq<Command>, t: Tenure, released: nat, id: nat, answer: Answer, k: nat, s0: Store)
    requires TenureOk(asked, t) && RightIn(asked, t, released, id, answer, k)
    ensures
      if k < |t.left| then OnLeftover(asked, t, released, id, answer, k)
      else OnLog(asked, t, released, id, answer, t.base + k - |t.left| + 1, s0)
  {
    if k < |t.left| {
      assert t.queued[..k] == t.left[..k] && t.queued[k] == t.left[k];
    } else {
      OwnPlace(asked, t, released, id, answer, k - |t.left|, s0);
    }
  }

  /** Where a successful reply comes from: a reign of the node, and in it an entry it logged or a task it
      found in its queue. */
  lemma ReplyPlace(run: seq<Session>, es: seq<Event>, m: nat, i: nat, s0: Store) returns (t: Tenure, k: nat)
    requires IsSession(run, es) && IsConnected(run[0]) && m < |run| && i < |run[m].fired|
    requires run[m].fired[i].outcome.Answered?
    ensures
      var s, r := run[m], run[m].fired[i];
      && (t == s.back.tenure || t in s.back.past)
      && if k < |t.left| then OnLeftover(s.asked, t, s.back.released, r.id, r.outcome.answer, k)
         else OnLog(s.asked, t, s.back.released, r.id, r.outcome.answer, t.base + k - |t.left| + 1, s0)
  {
    ReplySafety(run, es, m, i);
    SessionHolds(run, es, m);
    var s, r := run[m], run[m].fired[i];
    t, k :| (t == s.back.tenure || t in s.back.past)
            && RightIn(s.asked, t, s.back.released, r.id, r.outcome.answer, k);
    RightPlace(s.asked, t, s.back.released, r.id, r.outcome.answer, k, s0);
  }
}
