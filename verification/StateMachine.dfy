/** The key-value state machine and its two apply paths (state_machine.cpp). */
module Machine {
  import opened Wrappers
  import opened Messages

  type Store = map<string, string>

  /** What a command answers to the client that asked for it. */
  datatype Answer =
    | PutDone
    | PutFailed
    | GetFound(key: string, value: string)
    | GetFailed(key: string)
    | DeleteDone
    | NoAnswer

  datatype ApplyTask = ApplyTask(index: nat, session: nat, requestId: nat, command: Command)

  /** An invoke task pushed to a client's session. */
  datatype Delivery = Delivery(session: nat, requestId: nat, answer: Answer)

  function Lookup(st: Store, key: string): Option<string> {
    if key in st then Some(st[key]) else None
  }

  function Applied(st: Store, c: Command): Store {
    match c
    case Put(k, v) => st[k := v]
    case Delete(k) => st - {k}
    case _ => st
  }

  function AnswerOf(st: Store, c: Command): Answer {
    match c
    case Put(_, _) => PutDone
    case Get(k) => if k in st then GetFound(k, st[k]) else GetFailed(k)
    case Delete(_) => DeleteDone
    case _ => NoAnswer
  }

  /** The store after applying the entries in order. */
  function Fold(st: Store, es: seq<LogEntry>): Store {
    if es == [] then st else Applied(Fold(st, es[..|es| - 1]), es[|es| - 1].command)
  }

  function RunTasks(st: Store, ts: seq<ApplyTask>): Store {
    if ts == [] then st else Applied(RunTasks(st, ts[..|ts| - 1]), ts[|ts| - 1].command)
  }

  /** The answers produced by running tasks, for the sessions that are still connected. */
  function Deliveries(st: Store, ts: seq<ApplyTask>, live: set<nat>): seq<Delivery> {
    if ts == [] then []
    else
      var t := ts[|ts| - 1];
      var before := ts[..|ts| - 1];
      Deliveries(st, before, live) +
      if t.session in live then [Delivery(t.session, t.requestId, AnswerOf(RunTasks(st, before), t.command))] else []
  }

  /** How many tasks at the front of the queue a commit index releases. */
  function Ready(ts: seq<ApplyTask>, commit: nat): (d: nat)
    ensures d <= |ts|
    ensures forall j :: 0 <= j < d ==> ts[j].index <= commit
    ensures d < |ts| ==> ts[d].index > commit
  {
    if ts == [] || ts[0].index > commit then 0 else 1 + Ready(ts[1..], commit)
  }

  // ---- A user data store that fails ----------------------------------------------------------------

  /** What a command answers when the store's read or write of it fails; a delete is answered like a put. */
  function AnswerUnder(st: Store, c: Command, ok: bool): Answer {
    if ok then AnswerOf(st, c)
    else
      match c
      case Put(_, _) => PutFailed
      case Get(k) => GetFailed(k)
      case Delete(_) => PutFailed
      case _ => NoAnswer
  }

  /** The store after applying the entries, of which the store refuses those at the positions `failed`. */
  function FoldUnder(st: Store, es: seq<LogEntry>, failed: set<nat>): Store {
    if es == [] then st
    else
      var n := |es| - 1;
      var before := FoldUnder(st, es[..n], failed);
      if n in failed then before else Applied(before, es[n].command)
  }

  function RunUnder(st: Store, ts: seq<ApplyTask>, failed: set<nat>): Store {
    if ts == [] then st
    else
      var n := |ts| - 1;
      var before := RunUnder(st, ts[..n], failed);
      if n in failed then before else Applied(before, ts[n].command)
  }

  function DeliveriesUnder(st: Store, ts: seq<ApplyTask>, live: set<nat>, failed: set<nat>): seq<Delivery> {
    if ts == [] then []
    else
      var n := |ts| - 1;
      var t := ts[n];
      DeliveriesUnder(st, ts[..n], live, failed) +
      if t.session in live
      then [Delivery(t.session, t.requestId, AnswerUnder(RunUnder(st, ts[..n], failed), t.command, n !in failed))]
      else []
  }

  /** The entries that do not fail, in order. */
  function Kept(es: seq<LogEntry>, failed: set<nat>): seq<LogEntry> {
    if es == [] then []
    else
      var n := |es| - 1;
      Kept(es[..n], failed) + if n in failed then [] else [es[n]]
  }

  /** Entries that fail are skipped, for good. */
  lemma {:induction false} FailedAreSkipped(st: Store, es: seq<LogEntry>, failed: set<nat>)
    ensures FoldUnder(st, es, failed) == Fold(st, Kept(es, failed))
  {
    if es == [] {
    } else {
      var n := |es| - 1;
      FailedAreSkipped(st, es[..n], failed);
      if n in failed {
        assert Kept(es, failed) == Kept(es[..n], failed);
      } else {
        assert Kept(es, failed)[..|Kept(es, failed)| - 1] == Kept(es[..n], failed);
      }
    }
  }

  function KeptTasks(ts: seq<ApplyTask>, failed: set<nat>): seq<ApplyTask> {
    if ts == [] then []
    else
      var n := |ts| - 1;
      KeptTasks(ts[..n], failed) + if n in failed then [] else [ts[n]]
  }

  lemma {:induction false} TasksAreSkipped(st: Store, ts: seq<ApplyTask>, failed: set<nat>)
    ensures RunUnder(st, ts, failed) == RunTasks(st, KeptTasks(ts, failed))
  {
    if ts == [] {
    } else {
      var n := |ts| - 1;
      TasksAreSkipped(st, ts[..n], failed);
      if n in failed {
        assert KeptTasks(ts, failed) == KeptTasks(ts[..n], failed);
      } else {
        assert KeptTasks(ts, failed)[..|KeptTasks(ts, failed)| - 1] == KeptTasks(ts[..n], failed);
      }
    }
  }

  lemma {:induction false} DeliveredUnder(st: Store, ts: seq<ApplyTask>, live: set<nat>, failed: set<nat>, j: nat)
    requires forall i :: 0 <= i < |ts| ==> ts[i].session in live
    ensures |DeliveriesUnder(st, ts, live, failed)| == |ts|
    ensures j < |ts| ==>
      DeliveriesUnder(st, ts, live, failed)[j]
      == Delivery(ts[j].session, ts[j].requestId,
                  AnswerUnder(RunUnder(st, ts[..j], failed), ts[j].command, j !in failed))
  {
    if ts == [] {
    } else {
      var n := |ts| - 1;
      DeliveredUnder(st, ts[..n], live, failed, j);
      if j < n { assert ts[..n][..j] == ts[..j]; }
    }
  }

  /** Tasks that fail are skipped too, and each is answered with its error. */
  lemma FailedTasks(st: Store, ts: seq<ApplyTask>, live: set<nat>, failed: set<nat>, j: nat)
    requires forall i :: 0 <= i < |ts| ==> ts[i].session in live
    ensures RunUnder(st, ts, failed) == RunTasks(st, KeptTasks(ts, failed))
    ensures |DeliveriesUnder(st, ts, live, failed)| == |ts|
    ensures j < |ts| ==>
      var d, c := DeliveriesUnder(st, ts, live, failed)[j], ts[j].command;
      && d.session == ts[j].session && d.requestId == ts[j].requestId
      && (j in failed && (c.Put? || c.Delete?) ==> d.answer == PutFailed)
      && (j in failed && c.Get? ==> d.answer == GetFailed(c.key))
      && (j !in failed ==> d.answer == AnswerOf(RunTasks(st, KeptTasks(ts[..j], failed)), c))
  {
    TasksAreSkipped(st, ts, failed);
    DeliveredUnder(st, ts, live, failed, j);
    if j < |ts| { TasksAreSkipped(st, ts[..j], failed); }
  }

  lemma {:induction false} NoEntryFailed(st: Store, es: seq<LogEntry>)
    ensures FoldUnder(st, es, {}) == Fold(st, es)
  {
    if es == [] {
    } else {
      NoEntryFailed(st, es[..|es| - 1]);
    }
  }

  lemma {:induction false} NoTaskFailed(st: Store, ts: seq<ApplyTask>, live: set<nat>)
    ensures RunUnder(st, ts, {}) == RunTasks(st, ts) && DeliveriesUnder(st, ts, live, {}) == Deliveries(st, ts, live)
  {
    if ts == [] {
    } else {
      NoTaskFailed(st, ts[..|ts| - 1], live);
    }
  }

  class StateMachine {
    var st: Store
    var tasks: seq<ApplyTask>

    constructor (st: Store)
      ensures this.st == st && tasks == []
    {
      this.st := st;
      tasks := [];
    }

    method ProduceApplyTask(task: ApplyTask)
      modifies this
      ensures tasks == old(tasks) + [task] && st == old(st)
    {
      tasks := tasks + [task];
    }

    /** The leader's path: drain the queue up to `commit`.  The store refuses the drained tasks at the
        positions `failed`. */
    method ApplyQueue(commit: nat, live: set<nat>, failed: set<nat>) returns (out: seq<Delivery>)
      modifies this
      ensures
        var d := Ready(old(tasks), commit);
        && tasks == old(tasks)[d..]
        && st == RunUnder(old(st), old(tasks)[..d], failed)
        && out == DeliveriesUnder(old(st), old(tasks)[..d], live, failed)
    {
      out := [];
      var d := 0;
      ghost var ts, st0 := tasks, st;
      while tasks != [] && tasks[0].index <= commit
        invariant 0 <= d <= |ts| && tasks == ts[d..]
        invariant Ready(ts, commit) == d + Ready(tasks, commit)
        invariant st == RunUnder(st0, ts[..d], failed)
        invariant out == DeliveriesUnder(st0, ts[..d], live, failed)
        decreases |tasks|
      {
        var task := tasks[0];
        assert ts[..d + 1][..d] == ts[..d];
        tasks := tasks[1..];
        var answer := ApplyCommand(task.command, d !in failed);
        d := d + 1;
        if task.session in live {
          out := out + [Delivery(task.session, task.requestId, answer)];
        }
      }
    }

    method ApplyCommand(c: Command, ok: bool) returns (a: Answer)
      modifies this`st
      ensures st == (if ok then Applied(old(st), c) else old(st)) && a == AnswerUnder(old(st), c, ok)
    {
      match c {
        case Put(k, v) => a := ApplyKvPut(k, v, ok);
        case Get(k) => a := ApplyKvGet(k, ok);
        case Delete(k) => a := ApplyKvDelete(k, ok);
        case _ => a := NoAnswer;
      }
    }

    /** The follower's path: apply a span of the log.  The store refuses the entries at `failed`, which are
        only logged. */
    method ApplyEntries(es: seq<LogEntry>, failed: set<nat>)
      modifies this
      ensures st == FoldUnder(old(st), es, failed) && tasks == old(tasks)
    {
      for i := 0 to |es|
        invariant st == FoldUnder(old(st), es[..i], failed) && tasks == old(tasks)
      {
        assert es[..i + 1][..i] == es[..i];
        match es[i].command {
          case Put(k, v) => if i !in failed { st := st[k := v]; }
          case Get(k) =>
          case Delete(k) => if i !in failed { st := st - {k}; }
          case _ =>
        }
      }
      assert es[..|es|] == es;
    }

    /** `writeOk` and `readOk` are the statuses of the user data store. */
    method ApplyKvPut(key: string, value: string, writeOk: bool) returns (a: Answer)
      modifies this`st
      ensures writeOk ==> st == old(st)[key := value] && a == PutDone
      ensures !writeOk ==> st == old(st) && a == PutFailed
    {
      if !writeOk { return PutFailed; }
      st := st[key := value];
      a := PutDone;
    }

    method ApplyKvGet(key: string, readOk: bool) returns (a: Answer)
      ensures a == if readOk && key in st then GetFound(key, st[key]) else GetFailed(key)
    {
      if readOk && key in st { a := GetFound(key, st[key]); } else { a := GetFailed(key); }
    }

    /** A delete that fails is answered like a put that fails. */
    method ApplyKvDelete(key: string, writeOk: bool) returns (a: Answer)
      modifies this`st
      ensures writeOk ==> st == old(st) - {key} && key !in st && a == DeleteDone
      ensures !writeOk ==> st == old(st) && a == PutFailed
    {
      if !writeOk { return PutFailed; }
      st := st - {key};
      a := DeleteDone;
    }
  }
}
