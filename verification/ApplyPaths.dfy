/** The two apply paths agree, and replay after a restart converges. */
module ApplyPaths {
  import opened Messages
  import opened Machine

  ghost predicate Writes(c: Command, key: string) {
    (c.Put? && c.key == key) || (c.Delete? && c.key == key)
  }

  ghost predicate Written(es: seq<LogEntry>, key: string) {
    exists j :: 0 <= j < |es| && Writes(es[j].command, key)
  }

  lemma {:induction false} FoldKey(s: Store, t: Store, es: seq<LogEntry>, key: string)
    ensures Written(es, key) ==> Lookup(Fold(s, es), key) == Lookup(Fold(t, es), key)
    ensures !Written(es, key) ==> Lookup(Fold(s, es), key) == Lookup(s, key)
  {
    if es == [] {
    } else {
      var n := |es| - 1;
      FoldKey(s, t, es[..n], key);
      if Writes(es[n].command, key) {
        assert Written(es, key);
      } else {
        assert Written(es, key) == Written(es[..n], key);
      }
    }
  }

  /** Entry j is the last that puts or deletes the key. */
  ghost predicate LastWrite(cs: seq<Command>, key: string, j: nat) {
    && j < |cs| && (cs[j].Put? || cs[j].Delete?) && cs[j].key == key
    && forall i :: j < i < |cs| ==> !((cs[i].Put? || cs[i].Delete?) && cs[i].key == key)
  }

  function Commands(es: seq<LogEntry>): seq<Command> {
    seq(|es|, i requires 0 <= i < |es| => es[i].command)
  }

  /** The last writer wins: a key holds what the last entry that names it in a put gives it, nothing if that
      entry is a delete, and what it held before if there is none; and so a get answers. */
  lemma {:induction false} LastWriter(s: Store, es: seq<LogEntry>, key: string, j: nat)
    ensures
      LastWrite(Commands(es), key, j) ==>
        if es[j].command.Put? then key in Fold(s, es) && Fold(s, es)[key] == es[j].command.value
        else key !in Fold(s, es)
    ensures
      (forall i :: 0 <= i < |es| ==> !((es[i].command.Put? || es[i].command.Delete?) && es[i].command.key == key)) ==>
        (key in Fold(s, es) <==> key in s) && (key in s ==> Fold(s, es)[key] == s[key])
  {
    if es == [] {
    } else {
      var n := |es| - 1;
      LastWriter(s, es[..n], key, j);
      var cs := Commands(es);
      assert Commands(es[..n]) == cs[..n];
      if j < n && LastWrite(cs, key, j) {
        assert !((cs[n].Put? || cs[n].Delete?) && cs[n].key == key);
        assert LastWrite(cs[..n], key, j);
      }
    }
  }

  /** What each command answers: a get with what the key holds, or that it holds nothing. */
  lemma AnswersSay(st: Store, key: string, value: string)
    ensures AnswerOf(st, Put(key, value)) == PutDone && AnswerOf(st, Delete(key)) == DeleteDone
    ensures AnswerOf(st, Get(key)) == if key in st then GetFound(key, st[key]) else GetFailed(key)
  {}

  /** The queue's tasks do the same to the store as entries with their commands. */
  function AsEntries(ts: seq<ApplyTask>): seq<LogEntry> {
    seq(|ts|, i requires 0 <= i < |ts| => LogEntry(0, ts[i].index, ts[i].command))
  }

  lemma {:induction false} TasksAsEntries(st: Store, ts: seq<ApplyTask>)
    ensures RunTasks(st, ts) == Fold(st, AsEntries(ts))
  {
    if ts == [] {
    } else {
      var n := |ts| - 1;
      TasksAsEntries(st, ts[..n]);
      assert AsEntries(ts)[..n] == AsEntries(ts[..n]);
    }
  }

  /** The last writer wins in the queue too. */
  lemma LastTask(st: Store, ts: seq<ApplyTask>, key: string, j: nat)
    ensures
      LastWrite(Commands(AsEntries(ts)), key, j) ==>
        if ts[j].command.Put? then key in RunTasks(st, ts) && RunTasks(st, ts)[key] == ts[j].command.value
        else key !in RunTasks(st, ts)
    ensures
      (forall i :: 0 <= i < |ts| ==> !((ts[i].command.Put? || ts[i].command.Delete?) && ts[i].command.key == key)) ==>
        (key in RunTasks(st, ts) <==> key in st) && (key in st ==> RunTasks(st, ts)[key] == st[key])
  {
    TasksAsEntries(st, ts);
    LastWriter(st, AsEntries(ts), key, j);
  }

  lemma {:induction false} FoldSplit(s: Store, a: seq<LogEntry>, b: seq<LogEntry>)
    ensures Fold(s, a + b) == Fold(Fold(s, a), b)
  {
    if b == [] {
      assert a + b == a;
    } else {
      assert (a + b)[..|a + b| - 1] == a + b[..|b| - 1];
      FoldSplit(s, a, b[..|b| - 1]);
    }
  }

  lemma FoldPrefix(s: Store, log: seq<LogEntry>, b: nat, c: nat)
    requires b <= c <= |log|
    ensures Fold(s, log[..c]) == Fold(Fold(s, log[..b]), log[b..c])
  {
    assert log[..c] == log[..b] + log[b..c];
    FoldSplit(s, log[..b], log[b..c]);
  }

  lemma FoldPast(s: Store, log: seq<LogEntry>, longer: seq<LogEntry>, c: nat)
    requires log <= longer && |log| <= c <= |longer|
    ensures Fold(s, longer[..c]) == Fold(Fold(s, log), longer[|log|..c])
  {
    assert longer[..|log|] == log;
    FoldPrefix(s, longer, |log|, c);
  }

  ghost predicate AgreeOutside(s: Store, t: Store, es: seq<LogEntry>) {
    forall key :: !Written(es, key) ==> Lookup(s, key) == Lookup(t, key)
  }

  /** Two stores are brought together by the same entries exactly when they agree on every key
      that the entries never write. */
  lemma ReplayIff(s: Store, t: Store, es: seq<LogEntry>)
    ensures Fold(s, es) == Fold(t, es) <==> AgreeOutside(s, t, es)
  {
    forall key
      ensures Written(es, key) ==> Lookup(Fold(s, es), key) == Lookup(Fold(t, es), key)
      ensures !Written(es, key) ==> Lookup(Fold(s, es), key) == Lookup(s, key)
      ensures !Written(es, key) ==> Lookup(Fold(t, es), key) == Lookup(t, key)
    {
      FoldKey(s, t, es, key);
      FoldKey(t, s, es, key);
    }
    if AgreeOutside(s, t, es) {
      SameLookups(Fold(s, es), Fold(t, es));
    }
  }

  lemma SameLookups(s: Store, t: Store)
    requires forall key :: Lookup(s, key) == Lookup(t, key)
    ensures s == t
  {
    forall key ensures key in s <==> key in t { assert Lookup(s, key) == Lookup(t, key); }
    forall key | key in s ensures s[key] == t[key] { assert Lookup(s, key) == Lookup(t, key); }
  }

  // ---- Restarts -----------------------------------------------------------------------------

  /** A replica of a fixed log.  `high` is the furthest index ever applied, and `base` the store
      that survived the last crash. */
  datatype Replica = Replica(applied: nat, st: Store, high: nat, base: Store)

  /** `ApplyTo(m)` stops anywhere; a crash keeps the store and forgets `last_applied_`. */
  datatype Event = ApplyTo(m: nat) | Crash

  function After(log: seq<LogEntry>, r: Replica, e: Event): Replica {
    match e
    case ApplyTo(m) =>
      if r.applied <= m <= |log| then
        Replica(m, Fold(r.st, log[r.applied..m]), if m > r.high then m else r.high, r.base)
      else r
    case Crash => Replica(0, r.st, r.high, r.st)
  }

  function AfterAll(log: seq<LogEntry>, s0: Store, es: seq<Event>): Replica {
    if es == [] then Replica(0, s0, 0, s0)
    else After(log, AfterAll(log, s0, es[..|es| - 1]), es[|es| - 1])
  }

  ghost predicate ReplicaOk(log: seq<LogEntry>, s0: Store, r: Replica) {
    && r.applied <= r.high <= |log|
    && r.st == Fold(r.base, log[..r.applied])
    && AgreeOutside(r.base, s0, log[..r.high])
  }

  lemma WrittenGrows(log: seq<LogEntry>, a: nat, b: nat, key: string)
    requires a <= b <= |log| && Written(log[..a], key)
    ensures Written(log[..b], key)
  {
    var j :| 0 <= j < a && Writes(log[..a][j].command, key);
    assert Writes(log[..b][j].command, key);
  }

  lemma AgreeLonger(s: Store, t: Store, log: seq<LogEntry>, a: nat, b: nat)
    requires a <= b <= |log| && AgreeOutside(s, t, log[..a])
    ensures AgreeOutside(s, t, log[..b])
  {
    forall key | !Written(log[..b], key) ensures Lookup(s, key) == Lookup(t, key) {
      if Written(log[..a], key) { WrittenGrows(log, a, b, key); }
    }
  }

  /** What applies up to `a` leave behind makes no difference outside the keys written up to `high`. */
  lemma AppliedAgrees(s: Store, t: Store, log: seq<LogEntry>, a: nat, high: nat)
    requires a <= high <= |log| && AgreeOutside(s, t, log[..high])
    ensures AgreeOutside(Fold(s, log[..a]), t, log[..high])
  {
    forall key | !Written(log[..high], key) ensures Lookup(Fold(s, log[..a]), key) == Lookup(t, key) {
      if Written(log[..a], key) { WrittenGrows(log, a, high, key); }
      FoldKey(s, s, log[..a], key);
    }
  }

  lemma {:induction false} ReplicaStaysOk(log: seq<LogEntry>, s0: Store, es: seq<Event>)
    ensures ReplicaOk(log, s0, AfterAll(log, s0, es))
  {
    if es == [] {
    } else {
      ReplicaStaysOk(log, s0, es[..|es| - 1]);
      var r := AfterAll(log, s0, es[..|es| - 1]);
      var r' := AfterAll(log, s0, es);
      if es[|es| - 1].Crash? {
        AppliedAgrees(r.base, s0, log, r.applied, r.high);
      } else if r.applied <= r'.applied {
        FoldPrefix(r.base, log, r.applied, r'.applied);
        AgreeLonger(r.base, s0, log, r.high, r'.high);
      }
    }
  }

  /** After any history of applies and crashes, a replay of 1..m over the surviving store reaches
      exactly the store of a fresh replay of 1..m, for every m no smaller than anything applied
      before; and a replica that has caught up with its past holds exactly the fold of its log. */
  lemma ReplayConverges(log: seq<LogEntry>, s0: Store, es: seq<Event>, m: nat)
    requires AfterAll(log, s0, es).high <= m <= |log|
    ensures
      var r := AfterAll(log, s0, es);
      && Fold(r.st, log[..m]) == Fold(s0, log[..m])
      && (r.applied == r.high ==> r.st == Fold(s0, log[..r.applied]))
  {
    ReplicaStaysOk(log, s0, es);
    var r := AfterAll(log, s0, es);
    ReplayFrom(log, s0, r.base, r.applied, r.high, m);
  }

  /** The same, of any store that began as one which agrees with s0 outside the keys written. */
  lemma ReplayFrom(log: seq<LogEntry>, s0: Store, base: Store, a: nat, high: nat, m: nat)
    requires a <= high <= m <= |log| && AgreeOutside(base, s0, log[..high])
    ensures Fold(Fold(base, log[..a]), log[..m]) == Fold(s0, log[..m])
    ensures a == high ==> Fold(base, log[..a]) == Fold(s0, log[..a])
  {
    AppliedAgrees(base, s0, log, a, high);
    AgreeLonger(Fold(base, log[..a]), s0, log, high, m);
    ReplayIff(Fold(base, log[..a]), s0, log[..m]);
    ReplayIff(base, s0, log[..high]);
  }

  // ---- The leader's queue -------------------------------------------------------------------

  /** A leader's reign: its log, its queue and store, and the answers given so far.  History: `queued`
      holds every task the reign has had, those left over from an earlier reign first. */
  datatype Reign = Reign(
    log: seq<LogEntry>, tasks: seq<ApplyTask>, st: Store, answers: seq<Delivery>, queued: seq<ApplyTask>)

  datatype ReignEvent =
    | Request(term: nat, session: nat, requestId: nat, command: Command)
    | CommitTo(commit: nat)

  /** What running the first d tasks answers; every session stays connected. */
  function Given(r: Reign, d: nat): seq<Delivery>
    requires d <= |r.tasks|
  {
    Deliveries(r.st, r.tasks[..d], set t | t in r.tasks :: t.session)
  }

  function Drain(r: Reign, d: nat): Reign
    requires d <= |r.tasks|
  {
    r.(tasks := r.tasks[d..], st := RunTasks(r.st, r.tasks[..d]), answers := r.answers + Given(r, d))
  }

  function Reigned(r: Reign, e: ReignEvent): Reign {
    match e
    case Request(term, session, requestId, command) =>
      var index := |r.log| + 1;
      var task := ApplyTask(index, session, requestId, command);
      r.(log := r.log + [LogEntry(term, index, command)], tasks := r.tasks + [task], queued := r.queued + [task])
    case CommitTo(commit) =>
      Drain(r, Ready(r.tasks, commit))
  }

  /** A reign on `log` that starts with the tasks `left` still in the queue: a leader that steps down
      keeps its queue. */
  function ReignedAll(log: seq<LogEntry>, left: seq<ApplyTask>, st: Store, es: seq<ReignEvent>): Reign {
    if es == [] then Reign(log, left, st, [], left)
    else Reigned(ReignedAll(log, left, st, es[..|es| - 1]), es[|es| - 1])
  }

  /** How many tasks the commits have released. */
  function Released(r: Reign): int {
    |r.queued| - |r.tasks|
  }

  /** Tasks that stand for consecutive log entries. */
  ghost predicate Aligned(ts: seq<ApplyTask>, log: seq<LogEntry>, from: nat) {
    && from + |ts| <= |log|
    && forall j :: 0 <= j < |ts| ==> ts[j].index == from + j + 1 && ts[j].command == log[from + j].command
  }

  lemma AlignedPart(ts: seq<ApplyTask>, log: seq<LogEntry>, from: nat, d: nat)
    requires Aligned(ts, log, from) && d <= |ts|
    ensures Aligned(ts[..d], log, from) && Aligned(ts[d..], log, from + d)
  {
    forall j | 0 <= j < |ts[d..]|
      ensures ts[d..][j].index == from + d + j + 1 && ts[d..][j].command == log[from + d + j].command
    {
      assert ts[d..][j] == ts[d + j];
    }
  }

  lemma {:induction false} AlignedRun(st: Store, ts: seq<ApplyTask>, log: seq<LogEntry>, from: nat)
    requires Aligned(ts, log, from)
    ensures RunTasks(st, ts) == Fold(st, log[from..from + |ts|])
  {
    if ts == [] {
    } else {
      var n := |ts| - 1;
      AlignedPart(ts, log, from, n);
      AlignedRun(st, ts[..n], log, from);
      assert log[from..from + |ts|][..n] == log[from..from + n];
      assert log[from..from + |ts|][n].command == ts[n].command;
    }
  }

  lemma {:induction false} RunSplit(st: Store, a: seq<ApplyTask>, b: seq<ApplyTask>)
    ensures RunTasks(st, a + b) == RunTasks(RunTasks(st, a), b)
  {
    if b == [] {
      assert a + b == a;
    } else {
      assert (a + b)[..|a + b| - 1] == a + b[..|b| - 1];
      RunSplit(st, a, b[..|b| - 1]);
    }
  }

  lemma RunOn(st: Store, ts: seq<ApplyTask>, q: nat, i: nat)
    requires q + i <= |ts|
    ensures RunTasks(RunTasks(st, ts[..q]), ts[q..][..i]) == RunTasks(st, ts[..q + i])
  {
    assert ts[..q + i] == ts[..q] + ts[q..][..i];
    RunSplit(st, ts[..q], ts[q..][..i]);
  }

  lemma {:induction false} DeliveryAt(st: Store, ts: seq<ApplyTask>, live: set<nat>, j: nat)
    requires forall t :: t in ts ==> t.session in live
    ensures |Deliveries(st, ts, live)| == |ts|
    ensures j < |ts| ==>
      Deliveries(st, ts, live)[j]
      == Delivery(ts[j].session, ts[j].requestId, AnswerOf(RunTasks(st, ts[..j]), ts[j].command))
  {
    if ts == [] {
    } else {
      var n := |ts| - 1;
      forall t | t in ts[..n] ensures t in ts {}
      DeliveryAt(st, ts[..n], live, j);
      if j < n { assert ts[..n][..j] == ts[..j]; }
    }
  }

  /** Answer i is the one that the i-th task of the reign gives after all earlier ones. */
  ghost predicate AnswerAt(answer: Delivery, queued: seq<ApplyTask>, st0: Store, i: nat)
    requires i < |queued|
  {
    var t := queued[i];
    answer == Delivery(t.session, t.requestId, AnswerOf(RunTasks(st0, queued[..i]), t.command))
  }

  /** The reign's own tasks stand for the entries from `base` on. */
  ghost predicate OwnTasks(log: seq<LogEntry>, queued: seq<ApplyTask>, base: nat, left: seq<ApplyTask>) {
    && left <= queued && base <= |log| && |queued| - |left| == |log| - base
    && Aligned(queued[|left|..], log, base)
  }

  /** The released tasks have run, and the others are still queued. */
  ghost predicate QueueOk(r: Reign, st0: Store) {
    var q := Released(r);
    0 <= q && r.tasks == r.queued[q..] && r.st == RunTasks(st0, r.queued[..q])
  }

  ghost predicate ReignOk(r: Reign, st0: Store) {
    && QueueOk(r, st0)
    && |r.answers| == Released(r)
    && forall i :: 0 <= i < Released(r) ==> AnswerAt(r.answers[i], r.queued, st0, i)
  }

  lemma RequestKeepsOk(r: Reign, base: nat, left: seq<ApplyTask>, st0: Store, e: ReignEvent)
    requires ReignOk(r, st0) && OwnTasks(r.log, r.queued, base, left) && e.Request?
    ensures ReignOk(Reigned(r, e), st0) && OwnTasks(Reigned(r, e).log, Reigned(r, e).queued, base, left)
  {
    var r', q := Reigned(r, e), Released(r);
    assert r'.queued[..q] == r.queued[..q];
    forall i | 0 <= i < q ensures AnswerAt(r'.answers[i], r'.queued, st0, i) {
      assert AnswerAt(r.answers[i], r.queued, st0, i);
      assert r'.queued[..i] == r.queued[..i];
    }
    var own := r.queued[|left|..];
    assert r'.queued[|left|..] == own + [r'.queued[|r.queued|]];
  }

  lemma GivenAt(r: Reign, d: nat, i: nat)
    requires d <= |r.tasks|
    ensures |Given(r, d)| == d && (i < d ==> AnswerAt(Given(r, d)[i], r.tasks, r.st, i))
  {
    var live := set t | t in r.tasks :: t.session;
    forall t | t in r.tasks[..d] ensures t.session in live { assert t in r.tasks; }
    DeliveryAt(r.st, r.tasks[..d], live, i);
    if i < d { assert r.tasks[..d][..i] == r.tasks[..i]; }
  }

  /** The i-th of the next d tasks answers from the store that all earlier tasks leave. */
  lemma DrainedAnswer(r: Reign, st0: Store, d: nat, i: nat)
    requires ReignOk(r, st0) && d <= |r.tasks|
    ensures |Given(r, d)| == d && (i < d ==> AnswerAt(Given(r, d)[i], r.queued, st0, Released(r) + i))
  {
    GivenAt(r, d, i);
    if i < d { RunOn(st0, r.queued, Released(r), i); }
  }

  lemma AnswersAfterDrain(r: Reign, st0: Store, d: nat)
    requires ReignOk(r, st0) && d <= |r.tasks|
    ensures
      var all := r.answers + Given(r, d);
      && |all| == Released(r) + d
      && forall i :: 0 <= i < Released(r) + d ==> AnswerAt(all[i], r.queued, st0, i)
  {
    var all, q := r.answers + Given(r, d), Released(r);
    DrainedAnswer(r, st0, d, d);
    forall i | 0 <= i < q + d ensures AnswerAt(all[i], r.queued, st0, i) {
      if i < q { assert AnswerAt(r.answers[i], r.queued, st0, i); } else { DrainedAnswer(r, st0, d, i - q); }
    }
  }

  lemma DrainKeepsOk(r: Reign, st0: Store, d: nat)
    requires ReignOk(r, st0) && d <= |r.tasks|
    ensures ReignOk(Drain(r, d), st0)
  {
    RunOn(st0, r.queued, Released(r), d);
    AnswersAfterDrain(r, st0, d);
    assert r.queued[Released(r)..][d..] == r.queued[Released(r) + d..];
  }

  lemma EventKeepsOk(r: Reign, base: nat, left: seq<ApplyTask>, st0: Store, e: ReignEvent)
    requires ReignOk(r, st0) && OwnTasks(r.log, r.queued, base, left)
    ensures ReignOk(Reigned(r, e), st0) && OwnTasks(Reigned(r, e).log, Reigned(r, e).queued, base, left)
  {
    match e
    case Request(_, _, _, _) => RequestKeepsOk(r, base, left, st0, e);
    case CommitTo(commit) => DrainKeepsOk(r, st0, Ready(r.tasks, commit));
  }

  lemma {:induction false} ReignStaysOk(log: seq<LogEntry>, left: seq<ApplyTask>, st: Store, es: seq<ReignEvent>)
    ensures ReignOk(ReignedAll(log, left, st, es), st)
    ensures
      var r := ReignedAll(log, left, st, es);
      OwnTasks(r.log, r.queued, |log|, left) && log <= r.log
  {
    if es == [] {
    } else {
      ReignStaysOk(log, left, st, es[..|es| - 1]);
      EventKeepsOk(ReignedAll(log, left, st, es[..|es| - 1]), |log|, left, st, es[|es| - 1]);
    }
  }

  // ---- What the reign's store is ------------------------------------------------------------------

  lemma AlignedRunTo(st: Store, ts: seq<ApplyTask>, log: seq<LogEntry>, from: nat, d: nat)
    requires Aligned(ts, log, from) && d <= |ts|
    ensures RunTasks(st, ts[..d]) == Fold(st, log[from..from + d])
  {
    AlignedPart(ts, log, from, d);
    AlignedRun(st, ts[..d], log, from);
  }

  lemma LeftoversFirst(st: Store, queued: seq<ApplyTask>, left: seq<ApplyTask>, m: nat)
    requires left <= queued && |left| + m <= |queued|
    ensures RunTasks(st, queued[..|left| + m]) == RunTasks(RunTasks(st, left), queued[|left|..][..m])
  {
    assert queued[..|left| + m] == left + queued[|left|..][..m];
    RunSplit(st, left, queued[|left|..][..m]);
  }

  /** Past the leftovers, the store folds the reign's own entries into what the leftovers made of it. */
  lemma OwnStore(log: seq<LogEntry>, queued: seq<ApplyTask>, base: nat, left: seq<ApplyTask>, st0: Store, m: nat)
    requires OwnTasks(log, queued, base, left) && |left| + m <= |queued|
    ensures RunTasks(st0, queued[..|left| + m]) == Fold(RunTasks(st0, left), log[base..base + m])
  {
    LeftoversFirst(st0, queued, left, m);
    AlignedRunTo(RunTasks(st0, left), queued[|left|..], log, base, m);
  }

  lemma TailAligned(r: Reign, base: nat, left: seq<ApplyTask>, m: nat)
    requires OwnTasks(r.log, r.queued, base, left) && |left| + m <= |r.queued|
    ensures Aligned(r.queued[|left| + m..], r.log, base + m)
  {
    AlignedPart(r.queued[|left|..], r.log, base, m);
    assert r.queued[|left|..][m..] == r.queued[|left| + m..];
  }

  /** The log, queue and store of a reign that began with `log0`, `left` and `st0`.  Until the leftovers
      are gone, the store is what the released ones made of it.  From then on the queue is the tail of the
      log, and the store is the fold of everything before it, over s0, exactly when what the leftovers made
      of the starting store and the fold of `log0` agree outside the keys that the reign's own drained
      entries write. */
  ghost predicate StoreIs(log: seq<LogEntry>, tasks: seq<ApplyTask>, st: Store,
                          log0: seq<LogEntry>, left: seq<ApplyTask>, st0: Store, s0: Store) {
    && log0 <= log && |tasks| <= |left| + |log| - |log0|
    && var d := |log| - |tasks|;
       if d < |log0| then
         st == RunTasks(st0, left[..|left| + d - |log0|])
       else
         Aligned(tasks, log, d) && (st == Fold(s0, log[..d]) <==> Unaffected(log, log0, RunTasks(st0, left), s0, d))
  }

  ghost predicate Unaffected(log: seq<LogEntry>, log0: seq<LogEntry>, started: Store, s0: Store, d: nat)
    requires |log0| <= d <= |log|
  {
    AgreeOutside(started, Fold(s0, log0), log[|log0|..d])
  }

  lemma DrainedStore(r: Reign, log0: seq<LogEntry>, left: seq<ApplyTask>, st0: Store, s0: Store, m: nat)
    requires QueueOk(r, st0) && OwnTasks(r.log, r.queued, |log0|, left) && log0 <= r.log && Released(r) == |left| + m
    ensures
      |log0| + m <= |r.log|
      && (r.st == Fold(s0, r.log[..|log0| + m])
          <==> Unaffected(r.log, log0, RunTasks(st0, left), s0, |log0| + m))
  {
    OwnStore(r.log, r.queued, |log0|, left, st0, m);
    FoldPastIff(RunTasks(st0, left), s0, log0, r.log, |log0| + m);
  }

  lemma ReignStore(r: Reign, log0: seq<LogEntry>, left: seq<ApplyTask>, st0: Store, s0: Store)
    requires QueueOk(r, st0) && OwnTasks(r.log, r.queued, |log0|, left) && log0 <= r.log
    ensures StoreIs(r.log, r.tasks, r.st, log0, left, st0, s0)
  {
    var q := Released(r);
    if q < |left| {
      assert r.queued[..q] == left[..q];
    } else {
      DrainedStore(r, log0, left, st0, s0, q - |left|);
      TailAligned(r, |log0|, left, q - |left|);
    }
  }

  /** The queue is what the reign has still to drain, and the store is the fold of everything before it. */
  ghost predicate FoldsAll(log: seq<LogEntry>, tasks: seq<ApplyTask>, st: Store, log0: seq<LogEntry>, s0: Store) {
    |log0| + |tasks| <= |log| && st == Fold(s0, log[..|log| - |tasks|])
  }

  lemma NothingLeft(log: seq<LogEntry>, tasks: seq<ApplyTask>, st: Store, log0: seq<LogEntry>, s0: Store)
    requires StoreIs(log, tasks, st, log0, [], Fold(s0, log0), s0)
    ensures FoldsAll(log, tasks, st, log0, s0)
  {
    assert Unaffected(log, log0, Fold(s0, log0), s0, |log| - |tasks|);
  }

  /** Queue apply refines log apply, whatever the order of requests and commits, on any log, with any
      tasks left in the queue and any store to start with: exactly under the condition of StoreIs. */
  lemma QueueRefinesLog(log: seq<LogEntry>, left: seq<ApplyTask>, st0: Store, s0: Store, es: seq<ReignEvent>)
    ensures
      var r := ReignedAll(log, left, st0, es);
      StoreIs(r.log, r.tasks, r.st, log, left, st0, s0)
  {
    ReignStaysOk(log, left, st0, es);
    ReignStore(ReignedAll(log, left, st0, es), log, left, st0, s0);
  }

  /** In particular, when all is applied and nothing is left at the start, draining the queue leaves the
      fold of the drained prefix. */
  lemma CleanReign(log: seq<LogEntry>, s0: Store, es: seq<ReignEvent>)
    ensures
      var r := ReignedAll(log, [], Fold(s0, log), es);
      FoldsAll(r.log, r.tasks, r.st, log, s0)
  {
    QueueRefinesLog(log, [], Fold(s0, log), s0, es);
    var r := ReignedAll(log, [], Fold(s0, log), es);
    NothingLeft(r.log, r.tasks, r.st, log, s0);
  }

  lemma FoldPastIff(st: Store, s0: Store, log: seq<LogEntry>, longer: seq<LogEntry>, d: nat)
    requires log <= longer && |log| <= d <= |longer|
    ensures Fold(st, longer[|log|..d]) == Fold(s0, longer[..d]) <==> Unaffected(longer, log, st, s0, d)
  {
    FoldPast(s0, log, longer, d);
    ReplayIff(st, Fold(s0, log), longer[|log|..d]);
  }

  lemma OwnAnswer(r: Reign, base: nat, left: seq<ApplyTask>, st0: Store, m: nat)
    requires ReignOk(r, st0) && OwnTasks(r.log, r.queued, base, left) && |left| + m < Released(r)
    ensures base + m < |r.log| && |r.answers| == Released(r)
    ensures
      r.answers[|left| + m].answer
      == AnswerOf(Fold(RunTasks(st0, left), r.log[base..base + m]), r.log[base + m].command)
  {
    assert AnswerAt(r.answers[|left| + m], r.queued, st0, |left| + m);
    OwnStore(r.log, r.queued, base, left, st0, m);
    assert r.queued[|left| + m] == r.queued[|left|..][m];
  }

  lemma AnswerRefines(r: Reign, log: seq<LogEntry>, left: seq<ApplyTask>, st0: Store, s0: Store, m: nat)
    requires ReignOk(r, st0) && OwnTasks(r.log, r.queued, |log|, left) && log <= r.log && |left| + m < Released(r)
    ensures
      var j := |log| + m;
      && j < |r.log| && |r.answers| == Released(r)
      && r.answers[|left| + m].answer == AnswerOf(Fold(RunTasks(st0, left), r.log[|log|..j]), r.log[j].command)
      && (Unaffected(r.log, log, RunTasks(st0, left), s0, j) ==>
            r.answers[|left| + m].answer == AnswerOf(Fold(s0, r.log[..j]), r.log[j].command))
  {
    OwnAnswer(r, |log|, left, st0, m);
    FoldPastIff(RunTasks(st0, left), s0, log, r.log, |log| + m);
  }

  /** Each of the reign's own answers is what its command answers once the leftovers and all the reign's
      own earlier entries have been applied; and, if what the reign started with makes no difference to
      that, on the fold of all earlier entries. */
  lemma QueueAnswers(log: seq<LogEntry>, left: seq<ApplyTask>, st0: Store, s0: Store, es: seq<ReignEvent>, m: nat)
    requires |left| + m < Released(ReignedAll(log, left, st0, es))
    ensures
      var r := ReignedAll(log, left, st0, es);
      var j := |log| + m;
      && j < |r.log| && |r.answers| == Released(r)
      && r.answers[|left| + m].answer == AnswerOf(Fold(RunTasks(st0, left), r.log[|log|..j]), r.log[j].command)
      && (Unaffected(r.log, log, RunTasks(st0, left), s0, j) ==>
            r.answers[|left| + m].answer == AnswerOf(Fold(s0, r.log[..j]), r.log[j].command))
  {
    ReignStaysOk(log, left, st0, es);
    AnswerRefines(ReignedAll(log, left, st0, es), log, left, st0, s0, m);
  }

  // ---- How far the queue is drained ------------------------------------------------------------------

  /** The furthest index released once event e has happened, given the furthest before it. */
  function DrainedBy(r: Reign, before: nat, e: ReignEvent): nat {
    match e
    case Request(_, _, _, _) => before
    case CommitTo(commit) => Max(before, Min(commit, |r.log|))
  }

  /** The furthest index that the commits have released, clipped to the log of the moment. */
  function Drained(log: seq<LogEntry>, left: seq<ApplyTask>, st: Store, es: seq<ReignEvent>): nat {
    if es == [] then |log|
    else
      var before := es[..|es| - 1];
      DrainedBy(ReignedAll(log, left, st, before), Drained(log, left, st, before), es[|es| - 1])
  }

  predicate NoNewer(left: seq<ApplyTask>, base: nat) {
    forall i :: 0 <= i < |left| ==> left[i].index <= base
  }

  /** One commit, on a queue whose leftovers are no newer than the log the reign started on. */
  lemma ReadyReaches(r: Reign, base: nat, left: seq<ApplyTask>, st0: Store, commit: nat)
    requires QueueOk(r, st0) && OwnTasks(r.log, r.queued, base, left) && NoNewer(left, base)
    ensures
      var before, after := |r.log| - |r.tasks|, |r.log| - |r.tasks| + Ready(r.tasks, commit);
      Max(base, after) == Max(Max(base, before), Min(commit, |r.log|))
  {
    var d, q := Ready(r.tasks, commit), Released(r);
    if q + d < |r.queued| { TaskIndex(r, base, left, q + d); }
    if 0 < d { TaskIndex(r, base, left, q + d - 1); }
  }

  lemma TaskIndex(r: Reign, base: nat, left: seq<ApplyTask>, i: nat)
    requires OwnTasks(r.log, r.queued, base, left) && i < |r.queued| && NoNewer(left, base)
    ensures
      if i < |left| then r.queued[i].index <= base else r.queued[i].index == base + i - |left| + 1
  {
    if i < |left| { assert r.queued[i] == left[i]; } else { assert r.queued[i] == r.queued[|left|..][i - |left|]; }
  }

  function Reach(r: Reign, base: nat): nat {
    Max(base, |r.log| - |r.tasks|)
  }

  lemma EventReaches(r: Reign, base: nat, left: seq<ApplyTask>, st0: Store, e: ReignEvent)
    requires ReignOk(r, st0) && OwnTasks(r.log, r.queued, base, left) && NoNewer(left, base)
    ensures Reach(Reigned(r, e), base) == DrainedBy(r, Reach(r, base), e)
  {
    if e.CommitTo? { ReadyReaches(r, base, left, st0, e.commit); }
  }

  /** The store reaches exactly as far as the commits say: leftovers no newer than the log never hold
      back, nor let through, an entry of the reign's own. */
  lemma {:induction false} DrainedIs(log: seq<LogEntry>, left: seq<ApplyTask>, st: Store, es: seq<ReignEvent>)
    requires NoNewer(left, |log|)
    ensures
      Drained(log, left, st, es) == Reach(ReignedAll(log, left, st, es), |log|)
  {
    if es == [] {
    } else {
      var before := es[..|es| - 1];
      DrainedIs(log, left, st, before);
      ReignStaysOk(log, left, st, before);
      EventReaches(ReignedAll(log, left, st, before), |log|, left, st, es[|es| - 1]);
    }
  }
}
